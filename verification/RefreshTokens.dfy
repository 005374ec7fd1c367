/** Refresh-token lineage (src/lib/tokens.ts): rotation reads the old token in one step and replaces it in another. */
module RefreshTokens {
  import opened Wrappers

  datatype Identity = Identity(userId: string, tenantId: string, email: string, role: string)

  const TTL_SECONDS: int := 7 * 24 * 60 * 60

  /** A stored token; login is the position of the login it descends from. */
  datatype Entry = Entry(data: Identity, expiresAt: int, login: nat)

  /** A rotation between its get and its pipeline. */
  datatype Rotation = Rotation(oldToken: string, data: Identity, login: nat, done: bool)

  /** entries holds the keys Redis still has; issued and logins are histories. */
  datatype Store = Store(
    entries: map<string, Entry>, now: int, rotations: seq<Rotation>, issued: set<string>, logins: seq<Identity>)

  datatype Action =
    | Login(data: Identity, token: string)
    | Get(token: string)
    | Exec(i: nat, newToken: string)
    | Revoke(token: string)
    | Tick(seconds: nat)
    | Rotate(token: string, newToken: string)

  /** Redis drops keys whose time has come. */
  function Expire(entries: map<string, Entry>, now: int): map<string, Entry> {
    map t | t in entries && now < entries[t].expiresAt :: entries[t]
  }

  function Replace(s: Store, oldToken: string, newToken: string, data: Identity, login: nat): Store {
    s.(entries := (s.entries - {oldToken})[newToken := Entry(data, s.now + TTL_SECONDS, login)],
       issued := s.issued + {newToken})
  }

  /** Generated identifiers are new: an action that would reuse one does not happen. */
  function Next(s: Store, a: Action): Store {
    match a
    case Login(data, token) =>
      if token in s.issued then s
      else s.(entries := s.entries[token := Entry(data, s.now + TTL_SECONDS, |s.logins|)],
              issued := s.issued + {token}, logins := s.logins + [data])
    case Get(token) =>
      if token !in s.entries then s
      else s.(rotations := s.rotations + [Rotation(token, s.entries[token].data, s.entries[token].login, false)])
    case Exec(i, newToken) =>
      if i >= |s.rotations| || s.rotations[i].done || newToken in s.issued then s
      else
        var r := s.rotations[i];
        Replace(s, r.oldToken, newToken, r.data, r.login).(rotations := s.rotations[i := r.(done := true)])
    case Revoke(token) => s.(entries := s.entries - {token})
    case Tick(seconds) => s.(now := s.now + seconds, entries := Expire(s.entries, s.now + seconds))
    case Rotate(token, newToken) =>
      if token !in s.entries || newToken in s.issued then s
      else Replace(s, token, newToken, s.entries[token].data, s.entries[token].login)
  }

  function Run(s: Store, actions: seq<Action>): Store {
    if actions == [] then s else Next(Run(s, actions[..|actions| - 1]), actions[|actions| - 1])
  }

  function Empty(now: int): Store { Store(map[], now, [], {}, []) }

  /** The token functions as the source runs them, without interference. */
  class RefreshTokenStore {
    var entries: map<string, Entry>
    var now: int
    ghost var issued: set<string>
    var logins: seq<Identity>  // one element for each login so far

    ghost function State(): Store reads this { Store(entries, now, [], issued, logins) }

    constructor (now: int)
      ensures State() == Empty(now)
    {
      this.entries, this.now, this.issued, this.logins := map[], now, {}, [];
    }

    method StoreRefreshToken(data: Identity, tokenId: string)
      requires tokenId !in issued
      modifies this
      ensures State() == Next(old(State()), Login(data, tokenId))
      ensures tokenId in entries && entries[tokenId].data == data
      ensures entries[tokenId].expiresAt == now + 7 * 24 * 3600
      ensures entries - {tokenId} == old(entries) - {tokenId}
    {
      entries := entries[tokenId := Entry(data, now + TTL_SECONDS, |logins|)];
      issued, logins := issued + {tokenId}, logins + [data];
    }

    method GetRefreshToken(tokenId: string) returns (data: Option<Identity>)
      ensures data == if tokenId in entries then Some(entries[tokenId].data) else None
    {
      data := if tokenId in entries then Some(entries[tokenId].data) else None;
    }

    method RevokeRefreshToken(tokenId: string)
      modifies this
      ensures State() == Next(old(State()), Revoke(tokenId))
      ensures tokenId !in entries && entries == old(entries) - {tokenId}
    {
      entries := entries - {tokenId};
    }

    method RotateRefreshToken(oldTokenId: string, newTokenId: string) returns (data: Option<Identity>)
      requires newTokenId !in issued
      modifies this
      ensures State() == Next(old(State()), Rotate(oldTokenId, newTokenId))
      ensures data == if oldTokenId in old(entries) then Some(old(entries)[oldTokenId].data) else None
      ensures data.None? ==> entries == old(entries)
      ensures data.Some? ==> newTokenId in entries && entries[newTokenId].data == data.value
                             && entries[newTokenId].expiresAt == now + 7 * 24 * 3600
                             && entries - {newTokenId} == old(entries) - {oldTokenId, newTokenId}
    {
      data := GetRefreshToken(oldTokenId);
      if data.None? {
        return;
      }
      var login := entries[oldTokenId].login;
      entries := entries - {oldTokenId};
      entries := entries[newTokenId := Entry(data.value, now + TTL_SECONDS, login)];
      issued := issued + {newTokenId};
    }
  }

  // ----- lineage

  ghost predicate Descends(s: Store, data: Identity, login: nat) {
    login < |s.logins| && s.logins[login] == data
  }

  ghost predicate LineageOk(s: Store) {
    && (forall t <- s.entries ::
          t in s.issued && Descends(s, s.entries[t].data, s.entries[t].login) && s.now < s.entries[t].expiresAt)
    && (forall r <- s.rotations :: r.oldToken in s.issued && Descends(s, r.data, r.login)
          && (r.oldToken in s.entries ==> s.entries[r.oldToken].login == r.login))
  }

  lemma StepLineage(s: Store, a: Action)
    requires LineageOk(s)
    ensures LineageOk(Next(s, a))
    ensures s.issued <= Next(s, a).issued && s.logins <= Next(s, a).logins
    ensures forall t <- Next(s, a).entries :: t in s.entries || t !in s.issued
  {
    match a {
      case Exec(i, newToken) => ExecLineage(s, i, newToken);
      case Get(token) => GetLineage(s, token);
      case Login(data, token) => LoginLineage(s, data, token);
      case Rotate(token, newToken) => RotateLineage(s, token, newToken);
      case Revoke(_) =>
      case Tick(_) =>
    }
  }

  lemma LoginLineage(s: Store, data: Identity, token: string)
    requires LineageOk(s)
    ensures LineageOk(Next(s, Login(data, token)))
    ensures s.logins <= Next(s, Login(data, token)).logins
  {
    assert forall i :: 0 <= i < |s.logins| ==> Next(s, Login(data, token)).logins[i] == s.logins[i];
  }

  lemma RotateLineage(s: Store, token: string, newToken: string)
    requires LineageOk(s)
    ensures LineageOk(Next(s, Rotate(token, newToken)))
  {
  }

  lemma ExecLineage(s: Store, i: nat, newToken: string)
    requires LineageOk(s)
    ensures LineageOk(Next(s, Exec(i, newToken)))
    ensures forall t <- Next(s, Exec(i, newToken)).entries :: t in s.entries || t !in s.issued
  {
    var s' := Next(s, Exec(i, newToken));
    if i < |s.rotations| {
      assert s.rotations[i] in s.rotations;
      forall r <- s'.rotations
        ensures r.oldToken in s'.issued && Descends(s', r.data, r.login)
        ensures r.oldToken in s'.entries ==> s'.entries[r.oldToken].login == r.login
      {
        assert r in s.rotations || r == s.rotations[i].(done := true);
      }
    }
  }

  lemma GetLineage(s: Store, token: string)
    requires LineageOk(s)
    ensures LineageOk(Next(s, Get(token)))
  {
    var s' := Next(s, Get(token));
    assert forall r <- s'.rotations :: r in s.rotations || (token in s.entries && r.oldToken == token);
  }

  lemma {:induction false} RunLineage(s: Store, actions: seq<Action>)
    requires LineageOk(s)
    ensures LineageOk(Run(s, actions))
    ensures s.issued <= Run(s, actions).issued && s.logins <= Run(s, actions).logins
    ensures forall t <- Run(s, actions).entries :: t in s.entries || t !in s.issued
  {
    if actions != [] {
      var before := actions[..|actions| - 1];
      RunLineage(s, before);
      StepLineage(Run(s, before), actions[|actions| - 1]);
    }
  }

  /** Once a token has been issued and is gone (rotated, revoked or expired), no continuation brings it back. */
  lemma GoneForGood(now: int, first: seq<Action>, later: seq<Action>, token: string)
    requires token in Run(Empty(now), first).issued && token !in Run(Empty(now), first).entries
    ensures token !in Run(Run(Empty(now), first), later).entries
  {
    RunLineage(Empty(now), first);
    RunLineage(Run(Empty(now), first), later);
  }

  /** Every stored token carries, unchanged, the identity of the one login it descends from. */
  lemma TokensKeepTheirIdentity(now: int, actions: seq<Action>, token: string)
    requires token in Run(Empty(now), actions).entries
    ensures var s := Run(Empty(now), actions); var e := s.entries[token];
            e.login < |s.logins| && e.data == s.logins[e.login] && s.now < e.expiresAt
  {
    RunLineage(Empty(now), actions);
  }

  /** A rotated token is gone, whatever happened between the rotation's two steps. */
  lemma RotationRetires(s: Store, i: nat, newToken: string)
    requires LineageOk(s) && i < |s.rotations| && !s.rotations[i].done && newToken !in s.issued
    ensures s.rotations[i].oldToken !in Next(s, Exec(i, newToken)).entries
    ensures var s' := Next(s, Exec(i, newToken)); var r := s.rotations[i];
      && newToken in s'.entries && s'.entries[newToken].data == r.data && s'.entries[newToken].login == r.login
      && s'.entries - {newToken} == s.entries - {r.oldToken}
  {
    assert s.rotations[i] in s.rotations;
  }

  /** A revoked token is gone at once and for good, and no other token is touched. */
  lemma RevocationHolds(now: int, first: seq<Action>, token: string, later: seq<Action>)
    ensures var s, s' := Run(Empty(now), first), Run(Empty(now), first + [Revoke(token)]);
      && s'.entries == s.entries - {token}
      && (token in s.issued ==> token !in Run(s', later).entries)
  {
    var actions := first + [Revoke(token)];
    assert actions[..|actions| - 1] == first;
    RunLineage(Empty(now), actions);
    RunLineage(Run(Empty(now), actions), later);
  }

  /** A new token lives for seven days to the second, if nothing else happens to it. */
  lemma LivesSevenDays(s: Store, data: Identity, token: string, seconds: nat)
    requires token !in s.issued
    ensures var s' := Next(Next(s, Login(data, token)), Tick(seconds));
            token in s'.entries <==> seconds < 604800
  {
  }

  // ----- how many live tokens a login has

  ghost predicate OnePerLogin(s: Store) {
    forall t, u :: t in s.entries && u in s.entries && s.entries[t].login == s.entries[u].login ==> t == u
  }

  predicate IsAtomic(a: Action) { !a.Get? && !a.Exec? }

  /** With rotation as one step, a login never has two live tokens. */
  lemma {:induction false} AtomicRotationKeepsOne(now: int, actions: seq<Action>)
    requires forall a <- actions :: IsAtomic(a)
    ensures OnePerLogin(Run(Empty(now), actions))
  {
    if actions != [] {
      var before, a := actions[..|actions| - 1], actions[|actions| - 1];
      assert forall b <- before :: b in actions;
      AtomicRotationKeepsOne(now, before);
      RunLineage(Empty(now), before);
      assert IsAtomic(a);
    }
  }

  /** Two rotations of one live token that both read it before either replaced it leave two live tokens. */
  lemma RacingRotationsLeaveTwo(s: Store, token: string, first: string, second: string)
    requires LineageOk(s) && token in s.entries && first !in s.issued && second !in s.issued && first != second
    ensures var n := |s.rotations|;
            var s' := Run(s, [Get(token), Get(token), Exec(n, first), Exec(n + 1, second)]);
            first in s'.entries && second in s'.entries && s'.entries[first].login == s'.entries[second].login
  {
    var n := |s.rotations|;
    var actions := [Get(token), Get(token), Exec(n, first), Exec(n + 1, second)];
    var s1 := Next(s, Get(token));
    var s2 := Next(s1, Get(token));
    var s3 := Next(s2, Exec(n, first));
    assert actions[..3] == [Get(token), Get(token), Exec(n, first)];
    assert actions[..3][..2] == [Get(token), Get(token)];
    assert actions[..3][..2][..1] == [Get(token)];
    assert actions[..3][..2][..1][..0] == [];
    assert Run(s, actions[..3][..2][..1]) == s1;
    assert Run(s, actions[..3][..2]) == s2;
    assert Run(s, actions[..3]) == s3;
  }

  /** Exactly when the second step of a rotation keeps one token per login: its old token is still there, or
      the login has no token left. */
  lemma ExecKeepsOneIff(s: Store, i: nat, newToken: string)
    requires LineageOk(s) && OnePerLogin(s) && i < |s.rotations| && !s.rotations[i].done && newToken !in s.issued
    ensures OnePerLogin(Next(s, Exec(i, newToken)))
            <==> s.rotations[i].oldToken in s.entries
                 || forall t <- s.entries :: s.entries[t].login != s.rotations[i].login
  {
    var r := s.rotations[i];
    var s' := Next(s, Exec(i, newToken));
    assert r in s.rotations;
    if r.oldToken !in s.entries {
      if t :| t in s.entries && s.entries[t].login == r.login {
        assert t in s'.entries && newToken in s'.entries && s'.entries[t].login == s'.entries[newToken].login;
      }
    }
  }

  /** A token that was just revoked is not found. */
  method RevokeThenGet(store: RefreshTokenStore, tokenId: string) returns (data: Option<Identity>)
    modifies store
    ensures data == None
  {
    store.RevokeRefreshToken(tokenId);
    data := store.GetRefreshToken(tokenId);
  }
}
