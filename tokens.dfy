/**
 * Token resolution shared by both handlers: look up the user documents of the
 * requested ids, read their `fcmToken` fields and keep the usable ones.
 */
module TokenLookup {
  import opened Values

  /**
   * The users collection: a user id is a key exactly when that user's document
   * exists, and maps to the document's `fcmToken` field.
   */
  type UserStore = map<string, Field>

  /**
   * The `fcmToken` values of the documents the users query returns
   * (`documentId in ids` and `fcmToken != null`): one value per distinct
   * requested id whose document exists and holds a non-null token, listed in
   * the order the ids are first requested.
   */
  function QueryTokens(users: UserStore, ids: seq<string>): (values: seq<Field>)
    ensures |values| <= |ids|
    ensures forall v :: v in values ==> v.Str?
  {
    if ids == [] then []
    else
      var prefix, id := ids[..|ids| - 1], ids[|ids| - 1];
      QueryTokens(users, prefix) + FetchedToken(users, prefix, id)
  }

  /** What the query adds for one more requested id: its token, unless already fetched or null. */
  function FetchedToken(users: UserStore, earlier: seq<string>, id: string): seq<Field>
  {
    if id in users && users[id].Str? && id !in earlier then [users[id]] else []
  }

  /** `.filter(token => token && token.length > 0)`: the non-empty strings, in order. */
  function UsableTokens(values: seq<Field>): (tokens: seq<string>)
    ensures |tokens| <= |values|
    ensures forall t :: t in tokens ==> t != ""
  {
    if values == [] then []
    else
      var v := values[|values| - 1];
      UsableTokens(values[..|values| - 1]) + (if Truthy(v) then [v.s] else [])
  }

  /** The tokens a handler sends to, for the requested user ids. */
  function Tokens(users: UserStore, ids: seq<string>): (tokens: seq<string>)
    ensures |tokens| <= |ids|
    ensures forall t :: t in tokens ==> t != ""
  {
    UsableTokens(QueryTokens(users, ids))
  }

  /** The requested users whose document holds token `t`. */
  ghost function Holders(users: UserStore, ids: seq<string>, t: string): set<string>
  {
    set u | u in ids && u in users && users[u] == Str(t)
  }

  lemma {:induction false} UsableTokensAppend(a: seq<Field>, b: seq<Field>)
    ensures UsableTokens(a + b) == UsableTokens(a) + UsableTokens(b)
    decreases |b|
  {
    if b == [] {
      assert a + b == a;
    } else {
      var b', v := b[..|b| - 1], b[|b| - 1];
      assert (a + b)[..|a + b| - 1] == a + b';
      UsableTokensAppend(a, b');
    }
  }

  /**
   * Tokens are not deduplicated: a non-empty token is sent to once for every
   * distinct requested user whose document holds it.
   */
  lemma {:induction false} TokensNotDeduplicated(users: UserStore, ids: seq<string>, t: string)
    requires t != ""
    ensures multiset(Tokens(users, ids))[t] == |Holders(users, ids, t)|
  {
    if ids == [] {
      assert Holders(users, ids, t) == {};
    } else {
      var prefix, id := ids[..|ids| - 1], ids[|ids| - 1];
      var step := UsableTokens(FetchedToken(users, prefix, id));
      assert ids == prefix + [id];
      TokensNotDeduplicated(users, prefix, t);
      UsableTokensAppend(QueryTokens(users, prefix), FetchedToken(users, prefix, id));
      assert Tokens(users, ids) == Tokens(users, prefix) + step;
      HoldersStep(users, prefix, id, t);
      if id in users && users[id] == Str(t) && id !in prefix {
        assert step == [t];
      } else {
        assert multiset(step)[t] == 0;
      }
    }
  }

  /** How the holders of a token change when one more id is requested. */
  lemma HoldersStep(users: UserStore, prefix: seq<string>, id: string, t: string)
    ensures |Holders(users, prefix + [id], t)| ==
      |Holders(users, prefix, t)| + if id in users && users[id] == Str(t) && id !in prefix then 1 else 0
  {
    var ids := prefix + [id];
    if id in users && users[id] == Str(t) && id !in prefix {
      assert Holders(users, ids, t) == Holders(users, prefix, t) + {id};
    } else {
      assert Holders(users, ids, t) == Holders(users, prefix, t);
    }
  }

  /**
   * A token is sent to exactly when it is non-empty and some requested user's
   * document holds it.
   */
  lemma TokenMembership(users: UserStore, ids: seq<string>, t: string)
    ensures t in Tokens(users, ids) <==> t != "" && exists u :: u in ids && u in users && users[u] == Str(t)
  {
    if t != "" {
      TokensNotDeduplicated(users, ids, t);
      if u :| u in ids && u in users && users[u] == Str(t) {
        assert u in Holders(users, ids, t);
      }
    }
  }

  /** Two distinct users sharing one device token make two sends to that token. */
  lemma SharedTokenSentTwice(users: UserStore, ids: seq<string>, u1: string, u2: string, t: string)
    requires t != "" && u1 != u2
    requires u1 in ids && u2 in ids && u1 in users && u2 in users
    requires users[u1] == Str(t) && users[u2] == Str(t)
    ensures multiset(Tokens(users, ids))[t] >= 2
  {
    TokensNotDeduplicated(users, ids, t);
    var h := Holders(users, ids, t);
    assert h == (h - {u1, u2}) + {u1, u2};
  }
}
