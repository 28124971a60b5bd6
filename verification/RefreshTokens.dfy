/**
 * Refresh-token families: issue, rotation on every use, reuse detection and revocation.
 * Rotations of one family happen one at a time; a token is known by its row, since the
 * stored digest of its random bytes is unique. Rows are never deleted.
 */
module RefreshTokens {
  import opened Optional

  type UserId = nat
  type FamilyId = nat
  type TokenId = nat
  type Time = int

  const REFRESH_TOKEN_TTL_MS := 7 * 24 * 60 * 60 * 1000

  datatype Token = Token(
    user: UserId, family: FamilyId, expiresAt: Time, revokedAt: Option<Time>, replacedBy: Option<TokenId>)

  /** The token rows by identity, and how many family identities have been drawn. */
  datatype Store = Store(tokens: seq<Token>, families: nat)

  datatype Outcome = Issued(id: TokenId) | Rotated(successor: TokenId, family: FamilyId, user: UserId) | Reused | Invalid | Done

  /** A presented token names a stored row, or none at all. */
  datatype Op =
    | Issue(user: UserId, now: Time)
    | Rotate(presented: TokenId, now: Time)
    | RevokeFamilyOf(presented: TokenId, now: Time)
    | RevokeAllOf(user: UserId, now: Time)

  datatype Result = Result(store: Store, outcome: Outcome)

  const EMPTY := Store([], 0)

  function NewToken(user: UserId, family: FamilyId, now: Time): Token {
    Token(user, family, now + REFRESH_TOKEN_TTL_MS, None, None)
  }

  function RevokedIf(t: Token, hit: bool, now: Time): Token {
    if hit && t.revokedAt.None? then t.(revokedAt := Some(now)) else t
  }

  /** What a bulk revocation is aimed at. */
  datatype Target = Family(family: FamilyId) | User(user: UserId)

  predicate Aims(target: Target, t: Token) {
    match target
    case Family(family) => t.family == family
    case User(user) => t.user == user
  }

  function RevokeRows(tokens: seq<Token>, target: Target, now: Time): (revoked: seq<Token>)
    ensures |revoked| == |tokens|
    ensures forall i :: 0 <= i < |tokens| ==> revoked[i] == RevokedIf(tokens[i], Aims(target, tokens[i]), now)
  {
    seq(|tokens|, i requires 0 <= i < |tokens| => RevokedIf(tokens[i], Aims(target, tokens[i]), now))
  }

  function RotateStep(s: Store, presented: TokenId, now: Time): Result {
    if presented >= |s.tokens| || s.tokens[presented].expiresAt < now then Result(s, Invalid)
    else
      var stored := s.tokens[presented];
      if stored.revokedAt.Some? then
        if stored.replacedBy.Some? then Result(s.(tokens := RevokeRows(s.tokens, Family(stored.family), now)), Reused)
        else Result(s, Invalid)
      else
        var successor := |s.tokens|;
        var created := s.tokens + [NewToken(stored.user, stored.family, now)];
        Result(s.(tokens := created[presented := stored.(revokedAt := Some(now), replacedBy := Some(successor))]),
               Rotated(successor, stored.family, stored.user))
  }

  function Step(s: Store, op: Op): Result {
    match op
    case Issue(user, now) =>
      Result(Store(s.tokens + [NewToken(user, s.families, now)], s.families + 1), Issued(|s.tokens|))
    case Rotate(presented, now) => RotateStep(s, presented, now)
    case RevokeFamilyOf(presented, now) =>
      if presented >= |s.tokens| then Result(s, Done)
      else Result(s.(tokens := RevokeRows(s.tokens, Family(s.tokens[presented].family), now)), Done)
    case RevokeAllOf(user, now) => Result(s.(tokens := RevokeRows(s.tokens, User(user), now)), Done)
  }

  function After(ops: seq<Op>): Store {
    if ops == [] then EMPTY else Step(After(ops[..|ops| - 1]), ops[|ops| - 1]).store
  }

  /** What the k-th call of a history reported. */
  function OutcomeOf(ops: seq<Op>, k: nat): Outcome
    requires k < |ops|
  {
    Step(After(ops[..k]), ops[k]).outcome
  }

  // ---------------------------------------------------------------- the chain

  /** Token i's link is right: it names the next token of the family, or there is none and the field is empty. */
  ghost predicate Linked(tokens: seq<Token>, i: TokenId)
    requires i < |tokens|
  {
    match tokens[i].replacedBy
    case None => forall j :: i < j < |tokens| ==> tokens[j].family != tokens[i].family
    case Some(next) =>
      && tokens[i].revokedAt.Some?
      && i < next < |tokens|
      && tokens[next].family == tokens[i].family
      && tokens[next].user == tokens[i].user
      && forall j :: i < j < next ==> tokens[j].family != tokens[i].family
  }

  ghost predicate Inv(s: Store) {
    && (forall i :: 0 <= i < |s.tokens| ==> s.tokens[i].family < s.families)
    && (forall i :: 0 <= i < |s.tokens| ==> Linked(s.tokens, i))
  }

  lemma RotateKeepsInv(s: Store, presented: TokenId, now: Time)
    requires Inv(s) && RotateStep(s, presented, now).outcome.Rotated?
    ensures Inv(RotateStep(s, presented, now).store)
  {
    var after := RotateStep(s, presented, now).store;
    assert Linked(s.tokens, presented);
    forall i | 0 <= i < |after.tokens|
      ensures Linked(after.tokens, i)
    {
      if i < |s.tokens| {
        assert Linked(s.tokens, i);
      }
    }
  }

  lemma RevokingKeepsInv(s: Store, after: Store)
    requires Inv(s) && after.families == s.families && |after.tokens| == |s.tokens|
    requires forall i :: 0 <= i < |s.tokens| ==>
               after.tokens[i] == s.tokens[i] || exists now :: after.tokens[i] == RevokedIf(s.tokens[i], true, now)
    ensures Inv(after)
  {
    forall i | 0 <= i < |after.tokens|
      ensures Linked(after.tokens, i)
    {
      assert Linked(s.tokens, i);
    }
  }

  lemma StepKeepsInv(s: Store, op: Op)
    requires Inv(s)
    ensures Inv(Step(s, op).store)
  {
    var after := Step(s, op).store;
    match op
    case Issue(user, now) =>
      forall i | 0 <= i < |after.tokens|
        ensures Linked(after.tokens, i)
      {
        if i < |s.tokens| {
          assert Linked(s.tokens, i);
        }
      }
    case Rotate(presented, now) =>
      if Step(s, op).outcome.Rotated? {
        RotateKeepsInv(s, presented, now);
      } else {
        RevokingKeepsInv(s, after);
      }
    case RevokeFamilyOf(presented, now) => RevokingKeepsInv(s, after);
    case RevokeAllOf(user, now) => RevokingKeepsInv(s, after);
  }

  lemma {:induction false} HistoriesKeepInv(ops: seq<Op>)
    ensures Inv(After(ops))
  {
    if ops != [] {
      HistoriesKeepInv(ops[..|ops| - 1]);
      StepKeepsInv(After(ops[..|ops| - 1]), ops[|ops| - 1]);
    }
  }

  /** The tokens of a family in the order they were created. */
  function FamilyTokens(tokens: seq<Token>, family: FamilyId): seq<TokenId> {
    if tokens == [] then []
    else
      var n := |tokens| - 1;
      FamilyTokens(tokens[..n], family) + if tokens[n].family == family then [n] else []
  }

  lemma {:induction false} OwnersAgree(tokens: seq<Token>, i: TokenId, j: TokenId)
    requires forall k :: 0 <= k < |tokens| ==> Linked(tokens, k)
    requires i < j < |tokens| && tokens[i].family == tokens[j].family
    ensures tokens[i].user == tokens[j].user
    decreases j - i
  {
    assert Linked(tokens, i);
    var next := tokens[i].replacedBy.value;
    if next < j {
      OwnersAgree(tokens, next, j);
    }
  }

  lemma OneOwnerPerFamily(ops: seq<Op>, i: TokenId)
    requires i < |After(ops).tokens|
    ensures forall j :: 0 <= j < |After(ops).tokens| && After(ops).tokens[j].family == After(ops).tokens[i].family ==>
              After(ops).tokens[j].user == After(ops).tokens[i].user
  {
    HistoriesKeepInv(ops);
    var tokens := After(ops).tokens;
    forall j | 0 <= j < |tokens| && tokens[j].family == tokens[i].family
      ensures tokens[j].user == tokens[i].user
    {
      if i < j {
        OwnersAgree(tokens, i, j);
      } else if j < i {
        OwnersAgree(tokens, j, i);
      }
    }
  }

  ghost predicate Lists(ids: seq<TokenId>, tokens: seq<Token>, family: FamilyId) {
    && (forall k :: 0 <= k < |ids| ==> ids[k] < |tokens| && tokens[ids[k]].family == family)
    && (forall k, m :: 0 <= k < m < |ids| ==> ids[k] < ids[m])
    && (forall i :: 0 <= i < |tokens| && tokens[i].family == family ==> i in ids)
  }

  lemma {:induction false} FamilyTokensAre(tokens: seq<Token>, family: FamilyId)
    ensures Lists(FamilyTokens(tokens, family), tokens, family)
  {
    if tokens != [] {
      var n := |tokens| - 1;
      FamilyTokensAre(tokens[..n], family);
      var shorter := FamilyTokens(tokens[..n], family);
      var ids := FamilyTokens(tokens, family);
      assert forall k :: 0 <= k < |shorter| ==> ids[k] == shorter[k] && tokens[ids[k]] == tokens[..n][shorter[k]];
      forall i | 0 <= i < |tokens| && tokens[i].family == family
        ensures i in ids
      {
        if i < n {
          assert tokens[..n][i] == tokens[i];
          assert i in shorter;
        } else {
          assert ids[|shorter|] == i;
        }
      }
    }
  }

  /** Each token was replaced by the next one of the list and by no other; the last was not replaced. */
  ghost predicate Chained(tokens: seq<Token>, chain: seq<TokenId>)
    requires forall k :: 0 <= k < |chain| ==> chain[k] < |tokens|
  {
    forall k :: 0 <= k < |chain| ==>
      tokens[chain[k]].replacedBy == if k + 1 < |chain| then Some(chain[k + 1]) else None
  }

  /**
   * After any history, a family is one simple chain over all its tokens: each token was replaced by the next
   * one created and by no other, the last was not replaced, only the last can be unrevoked, and one user owns all.
   */
  lemma FamilyIsOneChain(ops: seq<Op>, family: FamilyId)
    ensures
      var tokens := After(ops).tokens;
      var chain := FamilyTokens(tokens, family);
      && Lists(chain, tokens, family)
      && Chained(tokens, chain)
      && (forall k :: 0 <= k < |chain| && tokens[chain[k]].revokedAt.None? ==> k == |chain| - 1)
      && (forall k, m :: 0 <= k < |chain| && 0 <= m < |chain| ==> tokens[chain[k]].user == tokens[chain[m]].user)
  {
    HistoriesKeepInv(ops);
    var tokens := After(ops).tokens;
    var chain := FamilyTokens(tokens, family);
    FamilyTokensAre(tokens, family);
    LinksMakeAChain(tokens, chain, family);
    forall k, m | 0 <= k < |chain| && 0 <= m < |chain|
      ensures tokens[chain[k]].user == tokens[chain[m]].user
    {
      OneOwnerPerFamily(ops, chain[k]);
    }
  }

  lemma LinksMakeAChain(tokens: seq<Token>, chain: seq<TokenId>, family: FamilyId)
    requires Lists(chain, tokens, family)
    requires forall i :: 0 <= i < |tokens| ==> Linked(tokens, i)
    ensures Chained(tokens, chain)
    ensures forall k :: 0 <= k < |chain| && tokens[chain[k]].revokedAt.None? ==> k == |chain| - 1
  {
    forall k | 0 <= k < |chain|
      ensures tokens[chain[k]].replacedBy == if k + 1 < |chain| then Some(chain[k + 1]) else None
      ensures tokens[chain[k]].revokedAt.None? ==> k == |chain| - 1
    {
      assert Linked(tokens, chain[k]);
      ChainNext(tokens, chain, family, k);
    }
  }

  lemma ChainNext(tokens: seq<Token>, chain: seq<TokenId>, family: FamilyId, k: nat)
    requires Lists(chain, tokens, family)
    requires k < |chain| && Linked(tokens, chain[k])
    ensures tokens[chain[k]].replacedBy == if k + 1 < |chain| then Some(chain[k + 1]) else None
  {
    if tokens[chain[k]].replacedBy.Some? {
      var next := tokens[chain[k]].replacedBy.value;
      var m :| 0 <= m < |chain| && chain[m] == next;
      var following := if k + 1 < |chain| then chain[k + 1] else next;
      assert tokens[following].family == family;
      assert m > k && following <= next;
    }
  }

  lemma {:induction false} FamiliesDecideTheList(a: seq<Token>, b: seq<Token>, family: FamilyId)
    requires |a| == |b| && forall i :: 0 <= i < |a| ==> a[i].family == b[i].family
    ensures FamilyTokens(a, family) == FamilyTokens(b, family)
  {
    if a != [] {
      FamiliesDecideTheList(a[..|a| - 1], b[..|b| - 1], family);
    }
  }

  lemma CreatedJoinsTheList(s: Store, presented: TokenId, now: Time, family: FamilyId)
    requires RotateStep(s, presented, now).outcome.Rotated?
    ensures FamilyTokens(RotateStep(s, presented, now).store.tokens, family) ==
            FamilyTokens(s.tokens, family) + if s.tokens[presented].family == family then [|s.tokens|] else []
  {
    var created := s.tokens + [NewToken(s.tokens[presented].user, s.tokens[presented].family, now)];
    FamiliesDecideTheList(RotateStep(s, presented, now).store.tokens, created, family);
    assert created[..|s.tokens|] == s.tokens;
  }

  lemma LiveTokenIsLast(tokens: seq<Token>, presented: TokenId)
    requires (forall i :: 0 <= i < |tokens| ==> Linked(tokens, i))
    requires presented < |tokens| && tokens[presented].revokedAt.None?
    ensures var chain := FamilyTokens(tokens, tokens[presented].family);
            chain != [] && chain[|chain| - 1] == presented
  {
    var family := tokens[presented].family;
    var chain := FamilyTokens(tokens, family);
    FamilyTokensAre(tokens, family);
    LinksMakeAChain(tokens, chain, family);
    var k :| 0 <= k < |chain| && chain[k] == presented;
  }

  /**
   * A rotation succeeds if and only if the presented token is known, unexpired and unrevoked. That token is then
   * the end of its family's chain, the chain grows by the successor, and no other family changes.
   */
  lemma RotationMovesTheEnd(ops: seq<Op>, presented: TokenId, now: Time, family: FamilyId)
    ensures
      var s := After(ops);
      var r := Step(s, Rotate(presented, now));
      r.outcome.Rotated? <==>
        presented < |s.tokens| && now <= s.tokens[presented].expiresAt && s.tokens[presented].revokedAt.None?
    ensures
      var s := After(ops);
      var r := Step(s, Rotate(presented, now));
      r.outcome.Rotated? ==>
        && var before, after := FamilyTokens(s.tokens, family), FamilyTokens(r.store.tokens, family);
        && r.outcome.family == s.tokens[presented].family && r.outcome.user == s.tokens[presented].user
        && (if family != r.outcome.family then after == before
            else before != [] && before[|before| - 1] == presented && after == before + [r.outcome.successor])
  {
    HistoriesKeepInv(ops);
    var s := After(ops);
    if Step(s, Rotate(presented, now)).outcome.Rotated? {
      CreatedJoinsTheList(s, presented, now, family);
      LiveTokenIsLast(s.tokens, presented);
    }
  }

  // ---------------------------------------------------------------- rotation and reuse over whole histories

  /** Every token of the family is revoked, and no new one can join it. */
  ghost predicate Ended(s: Store, family: FamilyId) {
    && family < s.families
    && forall i :: 0 <= i < |s.tokens| && s.tokens[i].family == family ==> s.tokens[i].revokedAt.Some?
  }

  lemma AfterLast(ops: seq<Op>)
    requires ops != []
    ensures After(ops) == Step(After(ops[..|ops| - 1]), ops[|ops| - 1]).store
  {
  }

  lemma StepKeepsEnded(s: Store, op: Op, family: FamilyId)
    requires Ended(s, family)
    ensures Ended(Step(s, op).store, family)
  {
  }

  lemma {:induction false} EndedStaysEnded(ops: seq<Op>, k: nat, family: FamilyId)
    requires k <= |ops| && Ended(After(ops[..k]), family)
    ensures Ended(After(ops), family)
    decreases |ops|
  {
    if k == |ops| {
      assert ops[..k] == ops;
    } else {
      var n := |ops| - 1;
      assert ops[..n][..k] == ops[..k];
      EndedStaysEnded(ops[..n], k, family);
      StepKeepsEnded(After(ops[..n]), ops[n], family);
      AfterLast(ops);
    }
  }

  lemma EndedNeverRotates(ops: seq<Op>, k: nat, later: nat, family: FamilyId)
    requires k <= later < |ops| && Ended(After(ops[..k]), family)
    ensures var o := OutcomeOf(ops, later); o.Rotated? ==> o.family != family
  {
    assert ops[..later][..k] == ops[..k];
    EndedStaysEnded(ops[..later], k, family);
  }

  /** Once a replayed token is reported as reused, no token of its family ever rotates again. */
  lemma ReuseEndsTheFamily(ops: seq<Op>, k: nat, later: nat)
    requires k < later < |ops| && ops[k].Rotate? && OutcomeOf(ops, k) == Reused
    ensures ops[k].presented < |After(ops[..k]).tokens|
    ensures var o := OutcomeOf(ops, later);
            o.Rotated? ==> o.family != After(ops[..k]).tokens[ops[k].presented].family
  {
    HistoriesKeepInv(ops[..k]);
    assert ops[..k + 1][..k] == ops[..k];
    EndedNeverRotates(ops, k + 1, later, After(ops[..k]).tokens[ops[k].presented].family);
  }

  /** What a bulk revocation at `now` does to a row it is aimed at, and to any other. */
  ghost predicate OnlyRevokes(before: Token, after: Token, hit: bool, now: Time) {
    if hit && before.revokedAt.None?
    then after == Token(before.user, before.family, before.expiresAt, Some(now), before.replacedBy)
    else after == before
  }

  /**
   * A reported reuse reaches the presented token's family alone: there it dates what was unrevoked and nothing
   * else, every token of another family stays as it is, and another family's good token rotates right afterwards.
   */
  lemma ReuseLeavesOtherFamiliesAlone(ops: seq<Op>, k: nat, other: TokenId, now: Time)
    requires k < |ops| && ops[k].Rotate? && OutcomeOf(ops, k) == Reused
    ensures ops[k].presented < |After(ops[..k]).tokens| == |After(ops[..k + 1]).tokens|
    ensures
      var before, after := After(ops[..k]).tokens, After(ops[..k + 1]).tokens;
      var family := before[ops[k].presented].family;
      && (forall i :: 0 <= i < |before| ==> OnlyRevokes(before[i], after[i], before[i].family == family, ops[k].now))
      && (other < |before| && before[other].family != family
          && before[other].revokedAt.None? && now <= before[other].expiresAt ==>
            Step(After(ops[..k + 1]), Rotate(other, now)).outcome == Rotated(|after|, before[other].family, before[other].user))
  {
    assert ops[..k + 1][..k] == ops[..k];
  }

  /** A token issued or rotated in is good for seven days to the millisecond, unless it is revoked meanwhile. */
  lemma TokensLastAWeek(ops: seq<Op>, k: nat, now: Time)
    requires k < |ops| && (OutcomeOf(ops, k).Issued? || OutcomeOf(ops, k).Rotated?)
    ensures ops[k].Issue? || ops[k].Rotate?
    ensures var id := match OutcomeOf(ops, k) case Issued(id) => id case Rotated(id, _, _) => id case _ => 0;
            Step(After(ops[..k + 1]), Rotate(id, now)).outcome.Rotated? <==> now <= ops[k].now + 604_800_000
  {
    assert ops[..k + 1][..k] == ops[..k];
    HistoriesKeepInv(ops[..k]);
  }

  /** Logging out ends the presented token's family for good, and leaves every other family's rows as they were. */
  lemma LogoutEndsTheFamily(ops: seq<Op>, k: nat, later: nat)
    requires k < later < |ops| && ops[k].RevokeFamilyOf? && ops[k].presented < |After(ops[..k]).tokens|
    ensures
      var family := After(ops[..k]).tokens[ops[k].presented].family;
      var o := OutcomeOf(ops, later);
      && (o.Rotated? ==> o.family != family)
      && |After(ops[..k + 1]).tokens| == |After(ops[..k]).tokens|
      && forall i :: 0 <= i < |After(ops[..k]).tokens| ==>
            var t := After(ops[..k]).tokens[i]; OnlyRevokes(t, After(ops[..k + 1]).tokens[i], t.family == family, ops[k].now)
  {
    HistoriesKeepInv(ops[..k]);
    assert ops[..k + 1][..k] == ops[..k];
    EndedNeverRotates(ops, k + 1, later, After(ops[..k]).tokens[ops[k].presented].family);
  }

  /** After signing out everywhere, none of the user's families of that moment ever rotates again; other users' tokens stay. */
  lemma SignOutEndsAllFamilies(ops: seq<Op>, k: nat, later: nat, i: TokenId)
    requires k < later < |ops| && ops[k].RevokeAllOf?
    requires i < |After(ops[..k]).tokens| && After(ops[..k]).tokens[i].user == ops[k].user
    ensures var o := OutcomeOf(ops, later); o.Rotated? ==> o.family != After(ops[..k]).tokens[i].family
    ensures |After(ops[..k + 1]).tokens| == |After(ops[..k]).tokens|
    ensures forall j :: 0 <= j < |After(ops[..k]).tokens| ==>
              var t := After(ops[..k]).tokens[j];
              OnlyRevokes(t, After(ops[..k + 1]).tokens[j], t.user == ops[k].user, ops[k].now)
  {
    HistoriesKeepInv(ops[..k]);
    assert ops[..k + 1][..k] == ops[..k];
    var family := After(ops[..k]).tokens[i].family;
    OneOwnerPerFamily(ops[..k], i);
    EndedNeverRotates(ops, k + 1, later, family);
  }

  lemma StepKeepsReplaced(s: Store, op: Op, i: TokenId)
    requires Inv(s) && i < |s.tokens| && s.tokens[i].replacedBy.Some?
    ensures var after := Step(s, op).store;
            && i < |after.tokens|
            && after.tokens[i].replacedBy == s.tokens[i].replacedBy
            && after.tokens[i].expiresAt == s.tokens[i].expiresAt
  {
    assert Linked(s.tokens, i);
  }

  /** A replaced token keeps its link and its expiry, whatever happens next. */
  lemma {:induction false} ReplacedStaysReplaced(ops: seq<Op>, k: nat, i: TokenId)
    requires k <= |ops| && i < |After(ops[..k]).tokens| && After(ops[..k]).tokens[i].replacedBy.Some?
    ensures i < |After(ops).tokens|
    ensures After(ops).tokens[i].replacedBy == After(ops[..k]).tokens[i].replacedBy
    ensures After(ops).tokens[i].expiresAt == After(ops[..k]).tokens[i].expiresAt
    decreases |ops|
  {
    if k == |ops| {
      assert ops[..k] == ops;
    } else {
      var n := |ops| - 1;
      assert ops[..n][..k] == ops[..k];
      ReplacedStaysReplaced(ops[..n], k, i);
      HistoriesKeepInv(ops[..n]);
      StepKeepsReplaced(After(ops[..n]), ops[n], i);
      AfterLast(ops);
    }
  }

  /**
   * A token rotates at most once. Presenting it again is reported as reuse if and only if it has not expired;
   * an expired replay is merely invalid and revokes nothing.
   */
  lemma ReplayIsDetected(ops: seq<Op>, k: nat, later: nat)
    requires k < later < |ops| && ops[k].Rotate? && OutcomeOf(ops, k).Rotated?
    requires ops[later].Rotate? && ops[later].presented == ops[k].presented
    ensures ops[k].presented < |After(ops[..k]).tokens|
    ensures
      var live := ops[later].now <= After(ops[..k]).tokens[ops[k].presented].expiresAt;
      OutcomeOf(ops, later) == if live then Reused else Invalid
    ensures OutcomeOf(ops, later) == Invalid ==> After(ops[..later + 1]) == After(ops[..later])
  {
    assert ops[..k + 1][..k] == ops[..k];
    assert ops[..later][..k + 1] == ops[..k + 1];
    ReplacedStaysReplaced(ops[..later], k + 1, ops[k].presented);
    HistoriesKeepInv(ops[..later]);
    assert Linked(After(ops[..later]).tokens, ops[k].presented);
    assert ops[..later + 1][..later] == ops[..later];
  }

  // ---------------------------------------------------------------- the token table

  class TokenStore {
    var tokens: seq<Token>
    var families: nat

    function Contents(): Store
      reads this
    {
      Store(tokens, families)
    }

    constructor ()
      ensures Contents() == EMPTY
    {
      tokens, families := [], 0;
    }

    method CreateToken(user: UserId, family: FamilyId, now: Time) returns (id: TokenId)
      modifies this`tokens
      ensures id == |old(tokens)| && tokens == old(tokens) + [NewToken(user, family, now)]
    {
      id := |tokens|;
      tokens := tokens + [NewToken(user, family, now)];
    }

    /** A sign-in starts a family of its own. */
    method IssueRefreshToken(user: UserId, now: Time) returns (id: TokenId)
      modifies this
      ensures var r := Step(old(Contents()), Issue(user, now)); Contents() == r.store && r.outcome == Issued(id)
      ensures id == |old(tokens)| && families == old(families) + 1
      ensures tokens == old(tokens) + [Token(user, old(families), now + 604_800_000, None, None)]
    {
      var family := families;
      families := families + 1;
      id := CreateToken(user, family, now);
    }

    method RotateRefreshToken(presented: TokenId, now: Time) returns (outcome: Outcome)
      modifies this
      ensures Step(old(Contents()), Rotate(presented, now)) == Result(Contents(), outcome)
      ensures outcome.Rotated? || outcome in {Reused, Invalid}
      ensures outcome.Rotated? <==>
                presented < |old(tokens)| && now <= old(tokens)[presented].expiresAt && old(tokens)[presented].revokedAt.None?
      ensures outcome.Rotated? ==>
                && outcome.successor == |old(tokens)| && |tokens| == |old(tokens)| + 1
                && tokens[|old(tokens)|] ==
                   Token(old(tokens)[presented].user, old(tokens)[presented].family, now + 604_800_000, None, None)
                && tokens[presented] == old(tokens)[presented].(revokedAt := Some(now), replacedBy := Some(|old(tokens)|))
                && forall i :: 0 <= i < |old(tokens)| && i != presented ==> tokens[i] == old(tokens)[i]
      ensures outcome == Reused <==>
                && presented < |old(tokens)| && now <= old(tokens)[presented].expiresAt
                && old(tokens)[presented].revokedAt.Some? && old(tokens)[presented].replacedBy.Some?
      ensures outcome == Reused ==>
                && |tokens| == |old(tokens)|
                && forall i :: 0 <= i < |tokens| ==>
                     OnlyRevokes(old(tokens)[i], tokens[i], old(tokens)[i].family == old(tokens)[presented].family, now)
      ensures outcome == Invalid ==> tokens == old(tokens)
      ensures families == old(families)
    {
      if presented >= |tokens| || tokens[presented].expiresAt < now {
        return Invalid;
      }
      var stored := tokens[presented];
      if stored.revokedAt.Some? {
        if stored.replacedBy.Some? {
          tokens := RevokeRows(tokens, Family(stored.family), now);
          return Reused;
        }
        return Invalid;
      }
      var created := CreateToken(stored.user, stored.family, now);
      tokens := tokens[presented := stored.(revokedAt := Some(now), replacedBy := Some(created))];
      return Rotated(created, stored.family, stored.user);
    }

    /** Logout: the whole chain of one device. */
    method RevokeFamily(presented: TokenId, now: Time)
      modifies this
      ensures Contents() == Step(old(Contents()), RevokeFamilyOf(presented, now)).store
      ensures |tokens| == |old(tokens)|
      ensures forall i :: 0 <= i < |tokens| ==>
                OnlyRevokes(old(tokens)[i], tokens[i],
                            presented < |tokens| && old(tokens)[i].family == old(tokens)[presented].family, now)
    {
      if presented >= |tokens| {
        return;
      }
      tokens := RevokeRows(tokens, Family(tokens[presented].family), now);
    }

    method RevokeAllForUser(user: UserId, now: Time)
      modifies this
      ensures Contents() == Step(old(Contents()), RevokeAllOf(user, now)).store
      ensures |tokens| == |old(tokens)|
      ensures forall i :: 0 <= i < |tokens| ==> OnlyRevokes(old(tokens)[i], tokens[i], old(tokens)[i].user == user, now)
    {
      tokens := RevokeRows(tokens, User(user), now);
    }
  }
}
