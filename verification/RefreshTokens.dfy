/** Refresh-token rotation with reuse detection: the `refresh_tokens` table, the
    requests that read and write it, and every interleaving of them. */
module RefreshTokens {
  import opened Wrappers

  /** How long after its revocation a replayed token is put down to a benign race. */
  const REUSE_LEEWAY_MS := 10_000

  /** A signed token. Only its SHA-256 hash is stored; the hash is taken to be
      injective, so a row is identified by the token itself. */
  datatype Token = Token(sub: int, jti: int)

  /** A row of the table. Its id is its position; `pruned` marks a row that the
      daily clean-up has deleted, so that positions never shift. */
  datatype Row = Row(userId: int, familyId: int, token: Token, expiresAt: int,
                     revokedAt: Option<int>, pruned: bool)
  {
    predicate Live() { !pruned && revokedAt.None? }
  }

  // ----- what one database statement does to the table

  function NewRow(userId: int, familyId: int, token: Token, expiresAt: int): Row {
    Row(userId, familyId, token, expiresAt, None, false)
  }

  /** The row holding `token`, if the table has one. */
  function Find(rows: seq<Row>, token: Token): (r: Option<nat>)
    ensures r.Some? ==> r.value < |rows| && rows[r.value].token == token && !rows[r.value].pruned
    ensures r.None? ==> forall i | 0 <= i < |rows| :: rows[i].token == token ==> rows[i].pruned
  {
    if rows == [] then None
    else
      var last := |rows| - 1;
      if rows[last].token == token && !rows[last].pruned then Some(last) else Find(rows[..last], token)
  }

  function RevokeRow(r: Row, hit: bool, now: int): Row {
    if hit && !r.pruned then r.(revokedAt := Some(now)) else r
  }

  /** Revoke every row of a family that is not revoked yet. */
  function RevokeFamily(rows: seq<Row>, family: int, now: int): seq<Row> {
    seq(|rows|, i requires 0 <= i < |rows| =>
      RevokeRow(rows[i], rows[i].familyId == family && rows[i].revokedAt.None?, now))
  }

  /** Revoke by token, revoked already or not: the statement has no such guard. */
  function RevokeByToken(rows: seq<Row>, token: Token, now: int): seq<Row> {
    seq(|rows|, i requires 0 <= i < |rows| => RevokeRow(rows[i], rows[i].token == token, now))
  }

  /** Delete the rows that have expired. */
  function Prune(rows: seq<Row>, now: int): seq<Row> {
    seq(|rows|, i requires 0 <= i < |rows| => rows[i].(pruned := rows[i].pruned || rows[i].expiresAt < now))
  }

  predicate Swappable(rows: seq<Row>, id: nat) {
    id < |rows| && rows[id].Live()
  }

  /** The rotation transaction: revoke row `id` if it is still live and insert its
      successor, or do nothing. */
  function Rotate(rows: seq<Row>, id: nat, now: int, successor: Row): seq<Row> {
    if Swappable(rows, id) then rows[id := rows[id].(revokedAt := Some(now))] + [successor] else rows
  }

  /** What `refreshToken` does with the row it has looked up. */
  datatype Decision = Unknown | Reuse(familyId: int) | SoftReject | Expired | Proceed(id: nat, familyId: int)

  function Decide(rows: seq<Row>, now: int, token: Token): Decision {
    match Find(rows, token)
    case None => Unknown
    case Some(id) =>
      if rows[id].revokedAt.Some? then
        if now - rows[id].revokedAt.value > REUSE_LEEWAY_MS then Reuse(rows[id].familyId) else SoftReject
      else if rows[id].expiresAt < now then Expired
      else Proceed(id, rows[id].familyId)
  }

  // ----- the service's own methods, one for each trip to the database

  class AuthService {
    var rows: seq<Row>
    const ttl: nat

    constructor (ttl: nat)
      ensures rows == [] && this.ttl == ttl
    {
      rows := [];
      this.ttl := ttl;
    }

    /** The lookup and the checks on the looked-up row. */
    method CheckPresented(token: Token, now: int) returns (d: Decision)
      ensures d == Decide(rows, now, token)
    {
      var found := Find(rows, token);
      if found.None? {
        return Unknown;
      }
      var stored := rows[found.value];
      if stored.revokedAt.Some? {
        var revokedAgo := now - stored.revokedAt.value;
        if revokedAgo > REUSE_LEEWAY_MS {
          return Reuse(stored.familyId);
        }
        return SoftReject;
      }
      if stored.expiresAt < now {
        return Expired;
      }
      return Proceed(found.value, stored.familyId);
    }

    /** The compare-and-swap transaction. */
    method RotateWithinFamily(id: nat, familyId: int, minted: Token, expiresAt: int, now: int) returns (rotated: bool)
      modifies this
      ensures rotated == old(Swappable(rows, id))
      ensures rows == Rotate(old(rows), id, now, NewRow(minted.sub, familyId, minted, expiresAt))
    {
      var count := 0;
      if id < |rows| && !rows[id].pruned && rows[id].revokedAt.None? {
        rows := rows[id := rows[id].(revokedAt := Some(now))];
        count := 1;
      }
      if count != 1 {
        return false;
      }
      rows := rows + [NewRow(minted.sub, familyId, minted, expiresAt)];
      return true;
    }

    /** Leaves no row of the family live, and every other row, and every earlier
        revocation time, as it was. */
    method RevokeAll(familyId: int, now: int)
      modifies this
      ensures rows == RevokeFamily(old(rows), familyId, now)
      ensures |rows| == |old(rows)| && forall i | 0 <= i < |rows| ::
                && (rows[i].familyId == familyId ==> !rows[i].Live())
                && (rows[i] == old(rows)[i]
                    || (old(rows)[i].familyId == familyId && old(rows)[i].Live()
                        && rows[i] == old(rows)[i].(revokedAt := Some(now))))
    {
      for i := 0 to |rows|
        invariant |rows| == |old(rows)|
        invariant forall j | 0 <= j < i :: rows[j] == RevokeFamily(old(rows), familyId, now)[j]
        invariant forall j | i <= j < |rows| :: rows[j] == old(rows)[j]
      {
        if rows[i].familyId == familyId && rows[i].Live() {
          rows := rows[i := rows[i].(revokedAt := Some(now))];
        }
      }
    }

    method Logout(token: Token, now: int)
      modifies this
      ensures rows == match old(Find(rows, token))
                      case Some(id) => RevokeFamily(old(rows), old(rows)[id].familyId, now)
                      case None => RevokeByToken(old(rows), token, now)
    {
      var stored := Find(rows, token);
      if stored.Some? {
        RevokeAll(rows[stored.value].familyId, now);
      } else {
        rows := RevokeByToken(rows, token, now);
      }
    }

    /** From then on, up to its expiry, the token is accepted; the verdict on every other
        token stays. */
    method StoreRefreshToken(userId: int, token: Token, familyId: int, now: int)
      modifies this
      ensures rows == old(rows) + [NewRow(userId, familyId, token, now + ttl)]
      ensures forall at :: Decide(rows, at, token) == if at <= now + ttl then Proceed(|old(rows)|, familyId) else Expired
      ensures forall other, at | other != token :: Decide(rows, at, other) == Decide(old(rows), at, other)
    {
      assert forall other | other != token ::
          Find(rows + [NewRow(userId, familyId, token, now + ttl)], other) == Find(rows, other) by {
        assert (rows + [NewRow(userId, familyId, token, now + ttl)])[..|rows|] == rows;
      }
      rows := rows + [NewRow(userId, familyId, token, now + ttl)];
    }
  }

  // ----- every interleaving of the requests

  /** What a request in flight remembers between two trips to the database. */
  datatype Local =
    | CheckingUser(id: nat, familyId: int, presented: Token)
    | Rotating(id: nat, familyId: int, minted: Token, expiresAt: int)
    | RevokingFamily(familyId: int)
    | RevokingToken(token: Token)

  datatype Rotation = Rotation(familyId: int, from: nat, to: nat)

  /** `known` holds every token signed or presented so far; `log` the rotations that
      succeeded. Both only record history: no request reads them. */
  datatype State = State(rows: seq<Row>, now: int, ttl: nat, inflight: map<int, Local>,
                         known: set<Token>, log: seq<Rotation>)

  datatype Event =
    | Tick(elapsed: nat)
    | CleanUp
    | Login(sub: int, jti: int, familyId: int)
    | PresentRefresh(client: int, token: Token)
    | SignSuccessor(client: int, active: bool, jti: int)
    | CommitRotation(client: int)
    | PresentLogout(client: int, token: Token)
    | CommitRevoke(client: int)
    | Abort(client: int)

  predicate HasFamily(rows: seq<Row>, family: int) {
    exists i :: 0 <= i < |rows| && rows[i].familyId == family
  }

  /** A token that is signed but not stored yet has not left the server. */
  predicate Unissued(s: State, token: Token) {
    exists c :: c in s.inflight && s.inflight[c].Rotating? && s.inflight[c].minted == token
  }

  /** One atomic step. An event that cannot happen in `s` changes nothing, so every
      sequence of events is a run. Random identifiers are fresh when drawn. */
  function Step(s: State, e: Event): State {
    match e
    case Tick(d) => s.(now := s.now + d)
    case CleanUp => s.(rows := Prune(s.rows, s.now))
    case Login(sub, jti, family) =>
      var token := Token(sub, jti);
      if token in s.known || HasFamily(s.rows, family) then s
      else s.(rows := s.rows + [NewRow(sub, family, token, s.now + s.ttl)], known := s.known + {token})
    case PresentRefresh(c, token) =>
      if c in s.inflight || Unissued(s, token) then s
      else
        var seen := s.(known := s.known + {token});
        (match Decide(s.rows, s.now, token)
         case Proceed(id, family) => seen.(inflight := s.inflight[c := CheckingUser(id, family, token)])
         case Reuse(family) => seen.(inflight := s.inflight[c := RevokingFamily(family)])
         case _ => seen)
    case SignSuccessor(c, active, jti) =>
      if c !in s.inflight || !s.inflight[c].CheckingUser? then s
      else
        var l := s.inflight[c];
        var minted := Token(l.presented.sub, jti);
        if !active then s.(inflight := s.inflight - {c})
        else if minted in s.known then s
        else s.(known := s.known + {minted},
                inflight := s.inflight[c := Rotating(l.id, l.familyId, minted, s.now + s.ttl)])
    case CommitRotation(c) =>
      if c !in s.inflight || !s.inflight[c].Rotating? then s
      else
        var l := s.inflight[c];
        s.(rows := Rotate(s.rows, l.id, s.now, NewRow(l.minted.sub, l.familyId, l.minted, l.expiresAt)),
           inflight := s.inflight - {c},
           log := if Swappable(s.rows, l.id) then s.log + [Rotation(l.familyId, l.id, |s.rows|)] else s.log)
    case PresentLogout(c, token) =>
      if c in s.inflight || Unissued(s, token) then s
      else
        var next := match Find(s.rows, token)
                    case Some(id) => RevokingFamily(s.rows[id].familyId)
                    case None => RevokingToken(token);
        s.(known := s.known + {token}, inflight := s.inflight[c := next])
    case CommitRevoke(c) =>
      if c !in s.inflight then s
      else (match s.inflight[c]
            case RevokingFamily(family) =>
              s.(rows := RevokeFamily(s.rows, family, s.now), inflight := s.inflight - {c})
            case RevokingToken(token) =>
              s.(rows := RevokeByToken(s.rows, token, s.now), inflight := s.inflight - {c})
            case _ => s)
    case Abort(c) => s.(inflight := s.inflight - {c})
  }

  function Run(s: State, es: seq<Event>): State
    decreases |es|
  {
    if es == [] then s else Run(Step(s, es[0]), es[1..])
  }

  function Init(now: int, ttl: nat): State { State([], now, ttl, map[], {}, []) }

  // ----- the invariant

  /** Rows are only added, and a row changes only by being revoked once or pruned. */
  ghost predicate Extends(rows: seq<Row>, later: seq<Row>) {
    && |rows| <= |later|
    && forall i {:trigger later[i]} {:trigger rows[i]} | 0 <= i < |rows| ::
         && later[i].userId == rows[i].userId
         && later[i].familyId == rows[i].familyId
         && later[i].token == rows[i].token
         && later[i].expiresAt == rows[i].expiresAt
         && (rows[i].revokedAt.Some? ==> later[i].revokedAt == rows[i].revokedAt)
         && (rows[i].pruned ==> later[i].pruned)
  }

  ghost predicate SameFamily(rows: seq<Row>, i: int, j: int) {
    0 <= i < |rows| && 0 <= j < |rows| && rows[i].familyId == rows[j].familyId
  }

  /** Only the newest row of a family can be unrevoked, and a family has one owner. */
  ghost predicate Chained(rows: seq<Row>) {
    && (forall i, j | SameFamily(rows, i, j) && i < j :: rows[i].revokedAt.Some?)
    && (forall i, j | SameFamily(rows, i, j) :: rows[i].userId == rows[j].userId)
    && (forall i | 0 <= i < |rows| :: rows[i].userId == rows[i].token.sub)
  }

  /** `r` is a link from one row of a family to the next. */
  ghost predicate IsLink(rows: seq<Row>, r: Rotation) {
    && r.from < r.to < |rows|
    && rows[r.from].familyId == rows[r.to].familyId == r.familyId
    && forall k | r.from < k < r.to :: rows[k].familyId != r.familyId
  }

  ghost predicate Logged(rows: seq<Row>, log: seq<Rotation>) {
    && (forall k | 0 <= k < |log| :: IsLink(rows, log[k]))
    && (forall k, l | 0 <= k < l < |log| :: log[k].to != log[l].to)
    && (forall f :: Counted(rows, log, f))
  }

  /** A family that exists has one row more than it has had rotations. */
  ghost predicate Counted(rows: seq<Row>, log: seq<Rotation>, family: int) {
    |FamilyRows(rows, family)| == |FamilyLog(log, family)| + (if FamilyRows(rows, family) == {} then 0 else 1)
  }

  ghost function FamilyRows(rows: seq<Row>, family: int): set<int> {
    set i | 0 <= i < |rows| && rows[i].familyId == family
  }

  ghost function FamilyLog(log: seq<Rotation>, family: int): set<int> {
    set k | 0 <= k < |log| && log[k].familyId == family
  }

  ghost predicate Stored(rows: seq<Row>, token: Token) {
    exists i :: 0 <= i < |rows| && rows[i].token == token
  }

  ghost predicate LocalOk(s: State, l: Local) {
    match l
    case CheckingUser(id, family, token) => id < |s.rows| && s.rows[id].token == token && s.rows[id].familyId == family
    case Rotating(id, family, minted, _) =>
      && id < |s.rows| && s.rows[id].familyId == family && s.rows[id].userId == minted.sub
      && minted in s.known && !Stored(s.rows, minted)
    case RevokingFamily(family) => HasFamily(s.rows, family)
    case RevokingToken(token) =>
      token in s.known && !Unissued(s, token)
      && forall i | 0 <= i < |s.rows| :: s.rows[i].token == token ==> s.rows[i].pruned
  }

  ghost predicate Tokens(s: State) {
    && (forall i | 0 <= i < |s.rows| :: s.rows[i].token in s.known)
    && (forall i, j | 0 <= i < j < |s.rows| :: s.rows[i].token != s.rows[j].token)
    && (forall c | c in s.inflight :: LocalOk(s, s.inflight[c]))
    && (forall c, d | c in s.inflight && d in s.inflight && c != d ::
          s.inflight[c].Rotating? && s.inflight[d].Rotating? ==> s.inflight[c].minted != s.inflight[d].minted)
  }

  ghost predicate Inv(s: State) {
    Chained(s.rows) && Logged(s.rows, s.log) && Tokens(s)
  }

  // ----- the invariant holds in every run

  lemma UpdateKeepsChain(rows: seq<Row>, later: seq<Row>, log: seq<Rotation>)
    requires Chained(rows) && Logged(rows, log) && Extends(rows, later) && |rows| == |later|
    ensures Chained(later) && Logged(later, log)
  {
    forall i, j | SameFamily(later, i, j) ensures SameFamily(rows, i, j) {}
    forall k | 0 <= k < |log| ensures IsLink(later, log[k]) {
      assert IsLink(rows, log[k]);
    }
    forall f ensures Counted(later, log, f) {
      assert Counted(rows, log, f) && FamilyRows(later, f) == FamilyRows(rows, f);
    }
  }

  lemma LoginKeepsChain(rows: seq<Row>, log: seq<Rotation>, row: Row)
    requires Chained(rows) && Logged(rows, log) && !HasFamily(rows, row.familyId)
    requires row.userId == row.token.sub
    ensures Chained(rows + [row]) && Logged(rows + [row], log)
  {
    var later := rows + [row];
    forall i, j | SameFamily(later, i, j) ensures i == j == |rows| || SameFamily(rows, i, j) {}
    forall k | 0 <= k < |log| ensures IsLink(later, log[k]) {
      assert IsLink(rows, log[k]);
    }
    forall f ensures Counted(later, log, f) {
      assert Counted(rows, log, f);
      assert FamilyRows(later, f) == if f == row.familyId then {|rows|} else FamilyRows(rows, f);
    }
  }

  /** A live row is the newest of its family. */
  lemma LiveIsNewest(rows: seq<Row>, id: nat)
    requires Chained(rows) && Swappable(rows, id)
    ensures forall m | id < m < |rows| :: rows[m].familyId != rows[id].familyId
  {
    forall m | id < m < |rows| ensures rows[m].familyId != rows[id].familyId {
      assert !SameFamily(rows, id, m);
    }
  }

  lemma RotateKeepsChained(rows: seq<Row>, id: nat, now: int, row: Row)
    requires Chained(rows) && Swappable(rows, id)
    requires row.familyId == rows[id].familyId && row.userId == rows[id].userId == row.token.sub
    ensures Extends(rows, Rotate(rows, id, now, row))
    ensures Chained(Rotate(rows, id, now, row))
  {
    var later := Rotate(rows, id, now, row);
    LiveIsNewest(rows, id);
    forall i, j | SameFamily(later, i, j) && i < j ensures later[i].revokedAt.Some? {
      if i != id {
        assert SameFamily(rows, i, if j < |rows| then j else id);
      }
    }
    forall i, j | SameFamily(later, i, j) ensures later[i].userId == later[j].userId {
      assert SameFamily(rows, if i == |rows| then id else i, if j == |rows| then id else j);
    }
  }

  lemma RotateKeepsLog(rows: seq<Row>, log: seq<Rotation>, id: nat, now: int, row: Row)
    requires Chained(rows) && Logged(rows, log) && Swappable(rows, id) && row.familyId == rows[id].familyId
    ensures Logged(Rotate(rows, id, now, row), log + [Rotation(row.familyId, id, |rows|)])
  {
    var later := Rotate(rows, id, now, row);
    var log' := log + [Rotation(row.familyId, id, |rows|)];
    LiveIsNewest(rows, id);
    forall k | 0 <= k < |log'| ensures IsLink(later, log'[k]) {
      assert k < |log| ==> IsLink(rows, log[k]);
    }
    forall f ensures Counted(later, log', f) {
      RotateKeepsCount(rows, log, id, now, row, f);
    }
  }

  lemma RotateKeepsCount(rows: seq<Row>, log: seq<Rotation>, id: nat, now: int, row: Row, f: int)
    requires Counted(rows, log, f) && Swappable(rows, id) && row.familyId == rows[id].familyId
    ensures Counted(Rotate(rows, id, now, row), log + [Rotation(row.familyId, id, |rows|)], f)
  {
    var later := Rotate(rows, id, now, row);
    var link := Rotation(row.familyId, id, |rows|);
    if f == row.familyId {
      assert id in FamilyRows(rows, f);
    }
    assert FamilyRows(later, f) == FamilyRows(rows, f) + (if f == row.familyId then {|rows|} else {});
    assert FamilyLog(log + [link], f) == FamilyLog(log, f) + (if f == row.familyId then {|log|} else {});
  }

  /** The unguarded update at the end of `logout` never finds a row to overwrite. */
  lemma FallbackLogoutIsNoOp(s: State, c: int)
    requires Inv(s) && c in s.inflight && s.inflight[c].RevokingToken?
    ensures Step(s, CommitRevoke(c)).rows == s.rows && c !in Step(s, CommitRevoke(c)).inflight
  {
  }

  lemma CommitKeepsChain(s: State, c: int)
    requires Inv(s) && c in s.inflight && s.inflight[c].Rotating?
    ensures var s' := Step(s, CommitRotation(c));
            Extends(s.rows, s'.rows) && Chained(s'.rows) && Logged(s'.rows, s'.log)
  {
    var l := s.inflight[c];
    assert LocalOk(s, l);
    if Swappable(s.rows, l.id) {
      var row := NewRow(l.minted.sub, l.familyId, l.minted, l.expiresAt);
      RotateKeepsChained(s.rows, l.id, s.now, row);
      RotateKeepsLog(s.rows, s.log, l.id, s.now, row);
    }
  }

  /** Every step but a login and a rotation leaves the number of rows and the log alone. */
  lemma StepUpdates(s: State, e: Event)
    requires Inv(s) && !e.Login? && !e.CommitRotation?
    ensures Extends(s.rows, Step(s, e).rows) && |Step(s, e).rows| == |s.rows| && Step(s, e).log == s.log
  {
    if e.CommitRevoke? && e.client in s.inflight && s.inflight[e.client].RevokingToken? {
      FallbackLogoutIsNoOp(s, e.client);
    }
  }

  lemma LoginKeepsRows(s: State, sub: int, jti: int, family: int)
    requires Chained(s.rows) && Logged(s.rows, s.log)
    ensures var s' := Step(s, Login(sub, jti, family));
            Extends(s.rows, s'.rows) && Chained(s'.rows) && Logged(s'.rows, s'.log)
  {
    var token := Token(sub, jti);
    if token !in s.known && !HasFamily(s.rows, family) {
      LoginKeepsChain(s.rows, s.log, NewRow(sub, family, token, s.now + s.ttl));
    }
  }

  lemma UpdateKeepsRows(s: State, e: Event)
    requires Inv(s) && !e.Login? && !e.CommitRotation?
    ensures var s' := Step(s, e);
            Extends(s.rows, s'.rows) && Chained(s'.rows) && Logged(s'.rows, s'.log)
  {
    StepUpdates(s, e);
    UpdateKeepsChain(s.rows, Step(s, e).rows, s.log);
  }

  lemma StepKeepsChain(s: State, e: Event)
    requires Inv(s)
    ensures Extends(s.rows, Step(s, e).rows)
    ensures Chained(Step(s, e).rows) && Logged(Step(s, e).rows, Step(s, e).log)
  {
    match e
    case CommitRotation(c) =>
      if c in s.inflight && s.inflight[c].Rotating? {
        CommitKeepsChain(s, c);
      }
    case Login(sub, jti, family) => LoginKeepsRows(s, sub, jti, family);
    case _ => UpdateKeepsRows(s, e);
  }

  /** What a request remembers stays true while others run. */
  lemma LocalIsStable(s: State, s': State, l: Local)
    requires LocalOk(s, l) && Extends(s.rows, s'.rows) && s.known <= s'.known
    requires forall i | |s.rows| <= i < |s'.rows| ::
               (l.Rotating? ==> s'.rows[i].token != l.minted) && (l.RevokingToken? ==> s'.rows[i].token != l.token)
    requires l.RevokingToken? ==> !Unissued(s', l.token)
    ensures LocalOk(s', l)
  {
  }

  lemma NewLocalIsOk(s: State, e: Event, c: int)
    requires Inv(s) && c in Step(s, e).inflight
    requires c !in s.inflight || s.inflight[c] != Step(s, e).inflight[c]
    ensures LocalOk(Step(s, e), Step(s, e).inflight[c])
  {
    assert c in s.inflight ==> LocalOk(s, s.inflight[c]);
  }

  lemma OldLocalIsOk(s: State, e: Event, c: int)
    requires Inv(s) && c in s.inflight && c in Step(s, e).inflight && s.inflight[c] == Step(s, e).inflight[c]
    ensures LocalOk(Step(s, e), s.inflight[c])
  {
    StepKeepsChain(s, e);
    var s' := Step(s, e);
    var l := s.inflight[c];
    assert LocalOk(s, l);
    if !e.Login? && !e.CommitRotation? {
      StepUpdates(s, e);
    }
    LocalIsStable(s, s', l);
  }

  lemma StepKeepsTokens(s: State, e: Event)
    requires Inv(s)
    ensures Tokens(Step(s, e))
  {
    var s' := Step(s, e);
    StepKeepsChain(s, e);
    forall c | c in s'.inflight ensures LocalOk(s', s'.inflight[c]) {
      if c in s.inflight && s.inflight[c] == s'.inflight[c] {
        OldLocalIsOk(s, e, c);
      } else {
        NewLocalIsOk(s, e, c);
      }
    }
    StepKeepsDistinct(s, e);
  }

  lemma StepKeepsDistinct(s: State, e: Event)
    requires Inv(s)
    ensures var s' := Step(s, e);
      && (forall i | 0 <= i < |s'.rows| :: s'.rows[i].token in s'.known)
      && (forall i, j | 0 <= i < j < |s'.rows| :: s'.rows[i].token != s'.rows[j].token)
      && (forall c, d | c in s'.inflight && d in s'.inflight && c != d ::
            s'.inflight[c].Rotating? && s'.inflight[d].Rotating? ==> s'.inflight[c].minted != s'.inflight[d].minted)
  {
    StepKeepsChain(s, e);
    if !e.Login? && !e.CommitRotation? {
      StepUpdates(s, e);
    }
    if e.CommitRotation? && e.client in s.inflight {
      assert LocalOk(s, s.inflight[e.client]);
    }
    if e.SignSuccessor? {
      forall c | c in s.inflight && s.inflight[c].Rotating? ensures s.inflight[c].minted in s.known {
        assert LocalOk(s, s.inflight[c]);
      }
    }
  }

  lemma StepKeepsInv(s: State, e: Event)
    requires Inv(s)
    ensures Inv(Step(s, e)) && Extends(s.rows, Step(s, e).rows)
  {
    StepKeepsChain(s, e);
    StepKeepsTokens(s, e);
  }

  lemma {:induction false} RunKeepsInv(s: State, es: seq<Event>)
    requires Inv(s)
    ensures Inv(Run(s, es)) && Extends(s.rows, Run(s, es).rows) && s.now <= Run(s, es).now
    decreases |es|
  {
    if es != [] {
      StepKeepsInv(s, es[0]);
      RunKeepsInv(Step(s, es[0]), es[1..]);
      ExtendsTransitive(s.rows, Step(s, es[0]).rows, Run(s, es).rows);
    }
  }

  lemma ExtendsTransitive(a: seq<Row>, b: seq<Row>, c: seq<Row>)
    requires Extends(a, b) && Extends(b, c)
    ensures Extends(a, c)
  {
  }

  lemma InitHasInv(now: int, ttl: nat)
    ensures Inv(Init(now, ttl))
  {
  }

  // ----- main results

  /** In every run a family has at most one live token, and no token is rotated twice. */
  lemma AtMostOneLiveToken(now: int, ttl: nat, es: seq<Event>)
    ensures var s := Run(Init(now, ttl), es);
      && (forall i, j | SameFamily(s.rows, i, j) && s.rows[i].Live() && s.rows[j].Live() :: i == j)
      && (forall k, l | 0 <= k < l < |s.log| :: s.log[k].from != s.log[l].from)
  {
    InitHasInv(now, ttl);
    RunKeepsInv(Init(now, ttl), es);
    var s := Run(Init(now, ttl), es);
    forall i, j | SameFamily(s.rows, i, j) && s.rows[i].Live() && s.rows[j].Live() ensures i == j {
      assert SameFamily(s.rows, j, i);
    }
    forall k, l | 0 <= k < l < |s.log| ensures s.log[k].from != s.log[l].from {
      assert IsLink(s.rows, s.log[k]) && IsLink(s.rows, s.log[l]);
    }
  }

  lemma ChainOf(rows: seq<Row>, log: seq<Rotation>, family: int)
    requires Chained(rows) && Logged(rows, log) && HasFamily(rows, family)
    ensures |FamilyRows(rows, family)| == 1 + |FamilyLog(log, family)|
    ensures forall k | k in FamilyLog(log, family) :: IsLink(rows, log[k])
    ensures forall i, j | i in FamilyRows(rows, family) && j in FamilyRows(rows, family) ::
              (i < j ==> rows[i].revokedAt.Some?) && rows[i].userId == rows[i].token.sub == rows[j].userId
  {
    var i :| 0 <= i < |rows| && rows[i].familyId == family;
    assert i in FamilyRows(rows, family) && Counted(rows, log, family);
    forall i, j | i in FamilyRows(rows, family) && j in FamilyRows(rows, family) ensures SameFamily(rows, i, j) {}
  }

  /** The rows of a family are one chain: one more row than rotations, each rotation a
      link to the next row, every row but the newest revoked, one owner throughout. */
  lemma FamilyIsOneChain(now: int, ttl: nat, es: seq<Event>, family: int)
    requires HasFamily(Run(Init(now, ttl), es).rows, family)
    ensures var s := Run(Init(now, ttl), es);
      && |FamilyRows(s.rows, family)| == 1 + |FamilyLog(s.log, family)|
      && (forall k | k in FamilyLog(s.log, family) :: IsLink(s.rows, s.log[k]))
      && (forall k, l | 0 <= k < l < |s.log| :: s.log[k].to != s.log[l].to)
      && (forall i, j | i in FamilyRows(s.rows, family) && j in FamilyRows(s.rows, family) ::
            && (i < j ==> s.rows[i].revokedAt.Some?)
            && s.rows[i].userId == s.rows[i].token.sub == s.rows[j].userId)
  {
    InitHasInv(now, ttl);
    RunKeepsInv(Init(now, ttl), es);
    ChainOf(Run(Init(now, ttl), es).rows, Run(Init(now, ttl), es).log, family);
  }

  /** Is the step the rotation of row `i`, a revocation of its family, or a clean-up after
      its expiry? */
  predicate Retires(s: State, e: Event, i: nat)
    requires i < |s.rows|
  {
    match e
    case CommitRotation(c) => c in s.inflight && s.inflight[c].Rotating? && s.inflight[c].id == i
    case CommitRevoke(c) =>
      c in s.inflight && s.inflight[c].RevokingFamily? && s.inflight[c].familyId == s.rows[i].familyId
    case CleanUp => s.rows[i].expiresAt < s.now
    case _ => false
  }

  /** Exactly these steps end a live token. */
  lemma LiveEndsExactly(s: State, e: Event, i: nat)
    requires Inv(s) && i < |s.rows| && s.rows[i].Live()
    ensures i < |Step(s, e).rows|
    ensures !Step(s, e).rows[i].Live() <==> Retires(s, e, i)
  {
  }

  /** A family that has existed and has no live token. */
  ghost predicate Dead(rows: seq<Row>, family: int) {
    && HasFamily(rows, family)
    && forall i | 0 <= i < |rows| && rows[i].familyId == family :: !rows[i].Live()
  }

  lemma DeadAfterStep(s: State, e: Event, family: int)
    requires Inv(s) && Dead(s.rows, family)
    ensures Dead(Step(s, e).rows, family)
  {
    StepKeepsInv(s, e);
    var i :| 0 <= i < |s.rows| && s.rows[i].familyId == family;
    assert Step(s, e).rows[i].familyId == family;
    if e.CommitRotation? && e.client in s.inflight {
      assert LocalOk(s, s.inflight[e.client]);
    } else if !e.Login? && !e.CommitRotation? {
      StepUpdates(s, e);
    }
  }

  /** A family without a live token never has one again. */
  lemma {:induction false} DeadStaysDead(s: State, es: seq<Event>, family: int)
    requires Inv(s) && Dead(s.rows, family)
    ensures Dead(Run(s, es).rows, family)
    decreases |es|
  {
    if es != [] {
      StepKeepsInv(s, es[0]);
      DeadAfterStep(s, es[0], family);
      DeadStaysDead(Step(s, es[0]), es[1..], family);
    }
  }

  /** What presenting a revoked token leads to, at any later time and after any other
      requests: a tolerated race up to the leeway, reuse after it, and an unknown
      token once the row has been cleaned up. */
  lemma ReplayVerdict(s: State, i: nat, es: seq<Event>)
    requires Inv(s) && i < |s.rows| && s.rows[i].revokedAt.Some?
    ensures i < |Run(s, es).rows|
    ensures var s' := Run(s, es);
      Decide(s'.rows, s'.now, s.rows[i].token)
      == if s'.rows[i].pruned then Unknown
         else if s'.now - s.rows[i].revokedAt.value > REUSE_LEEWAY_MS then Reuse(s.rows[i].familyId)
         else SoftReject
  {
    RunKeepsInv(s, es);
    var s' := Run(s, es);
    var found := Find(s'.rows, s.rows[i].token);
    assert s'.rows[i].token == s.rows[i].token;
    assert found.Some? ==> found.value == i;
  }

  /** What presenting any token on record leads to, by its row: a row that is not revoked
      is expired from the moment after its expiry on, and accepted until then. */
  lemma VerdictByRow(s: State, es: seq<Event>, i: nat)
    requires Inv(s) && i < |Run(s, es).rows| && !Run(s, es).rows[i].pruned && Run(s, es).rows[i].revokedAt.None?
    ensures var s' := Run(s, es);
      && (Decide(s'.rows, s'.now, s'.rows[i].token) == Expired <==> s'.rows[i].expiresAt < s'.now)
      && (Decide(s'.rows, s'.now, s'.rows[i].token) == Proceed(i, s'.rows[i].familyId) <==> s'.now <= s'.rows[i].expiresAt)
  {
    RunKeepsInv(s, es);
    RowIsFound(Run(s, es), i);
  }

  lemma RowIsFound(s: State, i: nat)
    requires Inv(s) && i < |s.rows| && !s.rows[i].pruned
    ensures Find(s.rows, s.rows[i].token) == Some(i)
  {
    var found := Find(s.rows, s.rows[i].token);
    assert found.Some? ==> found.value == i;
  }

  /** And a token is unknown exactly if it is on no record. */
  lemma UnknownExactly(s: State, token: Token)
    ensures Decide(s.rows, s.now, token) == Unknown <==>
            forall i | 0 <= i < |s.rows| :: s.rows[i].token == token ==> s.rows[i].pruned
  {
  }

  /** The tokens that are about to be stored expire no later than if they were signed now. */
  ghost predicate Dated(s: State) {
    forall c | c in s.inflight && s.inflight[c].Rotating? :: s.inflight[c].expiresAt <= s.now + s.ttl
  }

  lemma StepKeepsDated(s: State, e: Event)
    requires Dated(s)
    ensures Dated(Step(s, e)) && Step(s, e).ttl == s.ttl
  {
  }

  lemma {:induction false} RunKeepsDated(s: State, es: seq<Event>)
    requires Dated(s)
    ensures Dated(Run(s, es)) && Run(s, es).ttl == s.ttl
    decreases |es|
  {
    if es != [] {
      StepKeepsDated(s, es[0]);
      RunKeepsDated(Step(s, es[0]), es[1..]);
    }
  }

  /** A login stores a live token of a family of its own, valid for exactly the lifetime. */
  lemma LoginStores(s: State, sub: int, jti: int, family: int)
    requires Token(sub, jti) !in s.known && !HasFamily(s.rows, family)
    ensures var rows := Step(s, Login(sub, jti, family)).rows;
      && |rows| == |s.rows| + 1 && rows[..|s.rows|] == s.rows
      && rows[|s.rows|].userId == sub && rows[|s.rows|].familyId == family && rows[|s.rows|].token == Token(sub, jti)
      && rows[|s.rows|].expiresAt == s.now + s.ttl && rows[|s.rows|].Live()
  {
  }

  /** Signing a successor takes an active user, and fixes its expiry; without one the
      request ends, and nothing is stored. */
  lemma SigningDecides(s: State, c: int, active: bool, jti: int)
    requires Inv(s) && c in s.inflight && s.inflight[c].CheckingUser? && Token(s.inflight[c].presented.sub, jti) !in s.known
    ensures var s', l := Step(s, SignSuccessor(c, active, jti)), s.inflight[c];
      && s'.rows == s.rows
      && (active <==> c in s'.inflight)
      && (active ==> s'.inflight[c] == Rotating(l.id, l.familyId, Token(l.presented.sub, jti), s.now + s.ttl))
      && forall d | d != c :: d in s'.inflight <==> d in s.inflight
  {
  }

  /** Whatever has run before and runs after: a token stored at some moment is refused
      from that moment plus the lifetime on, and, unless it has been revoked by then,
      presenting it changes no row and leaves nothing in flight. */
  lemma ExpiredIsRefused(start: int, ttl: nat, before: seq<Event>, e: Event, after: seq<Event>, c: int)
    requires var s := Run(Init(start, ttl), before); |Step(s, e).rows| == |s.rows| + 1
    requires Run(Step(Run(Init(start, ttl), before), e), after).now > Run(Init(start, ttl), before).now + ttl
    ensures var s := Run(Init(start, ttl), before);
            var s' := Run(Step(s, e), after);
            |s.rows| < |s'.rows| && var row := s'.rows[|s.rows|];
      && !Decide(s'.rows, s'.now, row.token).Proceed?
      && (row.revokedAt.None? ==>
            var next := Step(s', PresentRefresh(c, row.token));
            next.rows == s'.rows && next.inflight == s'.inflight)
  {
    var s := Run(Init(start, ttl), before);
    InitHasInv(start, ttl);
    RunKeepsInv(Init(start, ttl), before);
    RunKeepsDated(Init(start, ttl), before);
    StoredIsDated(s, e);
    StepKeepsInv(s, e);
    RunKeepsInv(Step(s, e), after);
    RowIsRefused(Run(Step(s, e), after), |s.rows|);
  }

  lemma StoredIsDated(s: State, e: Event)
    requires Dated(s) && |Step(s, e).rows| == |s.rows| + 1
    ensures Step(s, e).rows[|s.rows|].expiresAt <= s.now + s.ttl
  {
  }

  lemma RowIsRefused(s: State, i: nat)
    requires Inv(s) && i < |s.rows| && s.rows[i].expiresAt < s.now
    ensures !Decide(s.rows, s.now, s.rows[i].token).Proceed?
    ensures s.rows[i].revokedAt.None? ==> Decide(s.rows, s.now, s.rows[i].token) in {Unknown, Expired}
  {
    var found := Find(s.rows, s.rows[i].token);
    assert found.Some? ==> found.value == i;
  }

  /** The clean-up takes exactly the expired rows off the record. */
  lemma CleanUpIsExact(s: State, i: nat)
    requires i < |s.rows|
    ensures var rows := Step(s, CleanUp).rows;
      && |rows| == |s.rows| && rows[i].(pruned := s.rows[i].pruned) == s.rows[i]
      && (rows[i].pruned <==> s.rows[i].pruned || s.rows[i].expiresAt < s.now)
  {
  }

  /** A replay found to be reuse kills its family for good, whatever runs between the
      read that detects it, the write that revokes it, and ever after. */
  lemma ReplayKillsFamily(s: State, c: int, token: Token, family: int, between: seq<Event>, after: seq<Event>)
    requires Inv(s) && c !in s.inflight && !Unissued(s, token)
    requires Decide(s.rows, s.now, token) == Reuse(family)
    requires var s1 := Run(Step(s, PresentRefresh(c, token)), between);
             c in s1.inflight && s1.inflight[c] == RevokingFamily(family)
    ensures var s0 := Step(s, PresentRefresh(c, token));
            c in s0.inflight && s0.inflight[c] == RevokingFamily(family) && s0.rows == s.rows
    ensures var s1 := Run(Step(s, PresentRefresh(c, token)), between);
            Dead(Run(Step(s1, CommitRevoke(c)), after).rows, family)
  {
    StepKeepsInv(s, PresentRefresh(c, token));
    RunKeepsInv(Step(s, PresentRefresh(c, token)), between);
    RevokeKillsFamily(Run(Step(s, PresentRefresh(c, token)), between), c, after);
  }

  /** So does a logout with any token of the family that is still on record. */
  lemma LogoutKillsFamily(s: State, c: int, token: Token, between: seq<Event>, after: seq<Event>)
    requires Inv(s) && c !in s.inflight && !Unissued(s, token) && Find(s.rows, token).Some?
    requires var s1 := Run(Step(s, PresentLogout(c, token)), between);
             c in s1.inflight && s1.inflight[c] == RevokingFamily(s.rows[Find(s.rows, token).value].familyId)
    ensures var s0 := Step(s, PresentLogout(c, token));
            c in s0.inflight && s0.inflight[c] == RevokingFamily(s.rows[Find(s.rows, token).value].familyId)
    ensures var s1 := Run(Step(s, PresentLogout(c, token)), between);
            Dead(Run(Step(s1, CommitRevoke(c)), after).rows, s.rows[Find(s.rows, token).value].familyId)
  {
    StepKeepsInv(s, PresentLogout(c, token));
    RunKeepsInv(Step(s, PresentLogout(c, token)), between);
    RevokeKillsFamily(Run(Step(s, PresentLogout(c, token)), between), c, after);
  }

  lemma RevokeKillsFamily(s: State, c: int, after: seq<Event>)
    requires Inv(s) && c in s.inflight && s.inflight[c].RevokingFamily?
    ensures c !in Step(s, CommitRevoke(c)).inflight
    ensures Dead(Run(Step(s, CommitRevoke(c)), after).rows, s.inflight[c].familyId)
  {
    StepKeepsInv(s, CommitRevoke(c));
    assert LocalOk(s, s.inflight[c]);
    var i :| 0 <= i < |s.rows| && s.rows[i].familyId == s.inflight[c].familyId;
    assert Step(s, CommitRevoke(c)).rows[i].familyId == s.inflight[c].familyId;
    DeadStaysDead(Step(s, CommitRevoke(c)), after, s.inflight[c].familyId);
  }

  /** Two refreshes of one token: whichever commits first wins, and the later commit,
      however late, leaves every row and the winner's token as they were. */
  lemma LostRaceIsHarmless(s: State, c: int, d: int, between: seq<Event>)
    requires Inv(s) && c in s.inflight && s.inflight[c].Rotating?
    requires d in Run(Step(s, CommitRotation(c)), between).inflight
    requires var l := Run(Step(s, CommitRotation(c)), between).inflight[d];
             l.Rotating? && l.id == s.inflight[c].id
    ensures var s1 := Run(Step(s, CommitRotation(c)), between);
            Step(s1, CommitRotation(d)) == s1.(inflight := s1.inflight - {d})
  {
    StepKeepsInv(s, CommitRotation(c));
    var s0 := Step(s, CommitRotation(c));
    RunKeepsInv(s0, between);
    assert LocalOk(s, s.inflight[c]);
    var id := s.inflight[c].id;
    assert !s0.rows[id].Live();
    assert !Run(s0, between).rows[id].Live();
  }

  /** A tolerated replay, an expired or an unknown token changes no row and leaves
      nothing in flight. */
  lemma RejectionIsHarmless(s: State, c: int, token: Token)
    requires Decide(s.rows, s.now, token) in {SoftReject, Expired, Unknown}
    ensures var s' := Step(s, PresentRefresh(c, token));
            s'.rows == s.rows && s'.inflight == s.inflight && s'.log == s.log
  {
  }

  lemma RunFrom(s: State, e: Event, es: seq<Event>)
    ensures Run(s, [e] + es) == Run(Step(s, e), es)
  {
  }

  lemma RunOfThree(s: State, a: Event, b: Event, c: Event)
    ensures Run(s, [a, b, c]) == Step(Step(Step(s, a), b), c)
  {
    assert [a, b, c] == [a] + ([b] + ([c] + []));
    RunFrom(s, a, [b] + ([c] + []));
    RunFrom(Step(s, a), b, [c] + []);
    RunFrom(Step(Step(s, a), b), c, []);
  }

  lemma PresentAndSign(s: State, c: int, token: Token, jti: int)
    requires c !in s.inflight && !Unissued(s, token) && token in s.known
    requires Decide(s.rows, s.now, token).Proceed? && Token(token.sub, jti) !in s.known
    ensures var d := Decide(s.rows, s.now, token);
            var s' := Step(Step(s, PresentRefresh(c, token)), SignSuccessor(c, true, jti));
      && c in s'.inflight && s'.inflight[c] == Rotating(d.id, d.familyId, Token(token.sub, jti), s.now + s.ttl)
      && s'.rows == s.rows && s'.now == s.now
  {
  }

  lemma CommitIs(s: State, c: int, l: Local)
    requires c in s.inflight && s.inflight[c] == l && l.Rotating? && Swappable(s.rows, l.id)
    ensures var s' := Step(s, CommitRotation(c));
      && s'.rows == s.rows[l.id := s.rows[l.id].(revokedAt := Some(s.now))]
                    + [NewRow(l.minted.sub, l.familyId, l.minted, l.expiresAt)]
      && s'.now == s.now
  {
  }

  lemma RefreshSteps(s: State, c: int, token: Token, jti: int)
    requires c !in s.inflight && !Unissued(s, token) && token in s.known
    requires Decide(s.rows, s.now, token).Proceed? && Token(token.sub, jti) !in s.known
    ensures var d := Decide(s.rows, s.now, token);
            var s' := Run(s, [PresentRefresh(c, token), SignSuccessor(c, true, jti), CommitRotation(c)]);
      && s'.rows == s.rows[d.id := s.rows[d.id].(revokedAt := Some(s.now))]
                    + [NewRow(token.sub, d.familyId, Token(token.sub, jti), s.now + s.ttl)]
      && s'.now == s.now
  {
    var d := Decide(s.rows, s.now, token);
    RunOfThree(s, PresentRefresh(c, token), SignSuccessor(c, true, jti), CommitRotation(c));
    PresentAndSign(s, c, token, jti);
    CommitIs(Step(Step(s, PresentRefresh(c, token)), SignSuccessor(c, true, jti)), c,
             Rotating(d.id, d.familyId, Token(token.sub, jti), s.now + s.ttl));
  }

  lemma FindIs(rows: seq<Row>, token: Token, i: nat)
    requires i < |rows| && rows[i].token == token && !rows[i].pruned
    requires forall j | 0 <= j < |rows| && j != i :: rows[j].token != token
    ensures Find(rows, token) == Some(i)
  {
  }

  /** A refresh that nothing disturbs: the family's live token is the new one, and the
      old one is now a tolerated replay. */
  lemma {:induction false} UndisturbedRefresh(s: State, c: int, token: Token, jti: int)
    requires Inv(s) && c !in s.inflight && !Unissued(s, token)
    requires Decide(s.rows, s.now, token).Proceed? && Token(token.sub, jti) !in s.known
    ensures var d := Decide(s.rows, s.now, token);
            var s' := Run(s, [PresentRefresh(c, token), SignSuccessor(c, true, jti), CommitRotation(c)]);
      && s'.rows == s.rows[d.id := s.rows[d.id].(revokedAt := Some(s.now))]
                    + [NewRow(token.sub, d.familyId, Token(token.sub, jti), s.now + s.ttl)]
      && Decide(s'.rows, s'.now, token) == SoftReject
      && Decide(s'.rows, s'.now, Token(token.sub, jti)) == Proceed(|s.rows|, d.familyId)
  {
    assert token in s.known;
    RefreshSteps(s, c, token, jti);
    var rows := Run(s, [PresentRefresh(c, token), SignSuccessor(c, true, jti), CommitRotation(c)]).rows;
    var id := Decide(s.rows, s.now, token).id;
    FindIs(rows, token, id);
    FindIs(rows, Token(token.sub, jti), |s.rows|);
  }

  /** The by-token update of a logout changes the table exactly when a row on record holds
      the token and has not been revoked this very moment. */
  lemma FallbackLogoutWritesExactly(rows: seq<Row>, token: Token, now: int)
    ensures RevokeByToken(rows, token, now) != rows <==>
            exists i :: 0 <= i < |rows| && rows[i].token == token && !rows[i].pruned && rows[i].revokedAt != Some(now)
  {
  }
}
