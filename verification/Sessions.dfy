/** The session store (src/server/session.rs) and the visit counter kept in it
    (src/server/http_handler.rs).  Times are milliseconds; the id that a new
    session gets is a parameter. */
module Sessions {
  import opened Bytes
  import opened Numbers

  type Id = bytes

  const SESSION_TTL := 30 * 60 * 1_000
  const VISIT_COUNT: bytes := "visit_count"

  datatype Session = Session(createdAt: nat, lastAccessed: nat, data: map<bytes, bytes>)

  type Sessions = map<Id, Session>

  predicate Expired(s: Session, now: nat) { now - s.lastAccessed > SESSION_TTL }

  /** An expired session is removed only when somebody asks for it. */
  function Touched(m: Sessions, id: Id, now: nat): (Sessions, bool) {
    if id !in m then (m, false)
    else if Expired(m[id], now) then (m - {id}, false)
    else (m[id := m[id].(lastAccessed := now)], true)
  }

  function Created(m: Sessions, id: Id, now: nat): Sessions { m[id := Session(now, now, map[])] }

  /** The sessions that have not expired. */
  function Live(m: Sessions, now: nat): Sessions { map id | id in m && !Expired(m[id], now) :: m[id] }

  /** The shape of every generated id: 32 lower-case hexadecimal digits. */
  predicate IsSessionId(value: bytes) {
    |value| == 32 && forall i :: 0 <= i < 32 ==> '0' <= value[i] <= '9' || 'a' <= value[i] <= 'f'
  }

  /** The counter is kept as text. */
  function VisitsOf(s: Session): nat {
    if VISIT_COUNT !in s.data then 0
    else
      match FromStrRadix(s.data[VISIT_COUNT], 10)
      case Some(n) => n
      case None => 0
  }

  datatype Visit = Visit(id: Id, count: nat, isNew: bool)

  /** The session a request belongs to, and its visit count. */
  function Resolved(m: Sessions, cookie: Option<bytes>, newId: Id, now: nat): (Sessions, Visit) {
    var known := cookie.Some? && IsSessionId(cookie.value);
    var (m1, found) := if known then Touched(m, cookie.value, now) else (m, false);
    var (m2, id) := if found then (m1, cookie.value) else (Created(m1, newId, now), newId);
    var session := Touched(m2, id, now).0[id];
    var count := VisitsOf(session) + 1;
    (Touched(m2, id, now).0[id := session.(data := session.data[VISIT_COUNT := Dec(count)])], Visit(id, count, !found))
  }

  // ----------------------------------------------------------------- the store

  class SessionStore {
    var sessions: Sessions

    constructor ()
      ensures sessions == map[]
    {
      sessions := map[];
    }

    method Touch(id: Id, now: nat) returns (found: bool)
      modifies this
      ensures (sessions, found) == Touched(old(sessions), id, now)
    {
      if id !in sessions {
        return false;
      }
      if Expired(sessions[id], now) {
        sessions := sessions - {id};
        return false;
      }
      sessions := sessions[id := sessions[id].(lastAccessed := now)];
      return true;
    }

    method Create(newId: Id, now: nat)
      modifies this
      ensures sessions == Created(old(sessions), newId, now)
    {
      sessions := sessions[newId := Session(now, now, map[])];
    }

    /** `retain`, one session at a time. */
    method SweepExpired(now: nat)
      modifies this
      ensures sessions == Live(old(sessions), now)
    {
      var rest := sessions.Keys;
      while rest != {}
        invariant rest <= old(sessions).Keys
        invariant forall id :: id in sessions <==> id in old(sessions) && (id in rest || !Expired(old(sessions)[id], now))
        invariant forall id :: id in sessions ==> sessions[id] == old(sessions)[id]
        decreases |rest|
      {
        var id :| id in rest;
        if Expired(sessions[id], now) {
          sessions := sessions - {id};
        }
        rest := rest - {id};
      }
    }

    /** `resolve_session`. */
    method ResolveSession(cookie: Option<bytes>, newId: Id, now: nat) returns (visit: Visit)
      modifies this
      ensures (sessions, visit) == Resolved(old(sessions), cookie, newId, now)
    {
      var found := false;
      if cookie.Some? && IsSessionId(cookie.value) {
        found := Touch(cookie.value, now);
      }
      var id := newId;
      if found {
        id := cookie.value;
      } else {
        Create(newId, now);
      }
      var _ := Touch(id, now);
      var session := sessions[id];
      var next := 1;
      if VISIT_COUNT in session.data {
        var read := FromStrRadix(session.data[VISIT_COUNT], 10);
        if read.Some? {
          next := read.value + 1;
        }
      }
      sessions := sessions[id := session.(data := session.data[VISIT_COUNT := Dec(next)])];
      visit := Visit(id, next, !found);
    }
  }

  // ----------------------------------------------------------------------- runs

  datatype Step = Request(cookie: Option<bytes>, newId: Id, now: nat) | Sweep(now: nat)

  /** The store after some steps, and what each request was told. */
  function Run(m: Sessions, steps: seq<Step>): (Sessions, seq<Visit>)
    decreases |steps|
  {
    if steps == [] then (m, [])
    else
      match steps[0]
      case Sweep(now) => Run(Live(m, now), steps[1..])
      case Request(cookie, newId, now) =>
        var (m', visit) := Resolved(m, cookie, newId, now);
        var (m'', visits) := Run(m', steps[1..]);
        (m'', [visit] + visits)
  }

  predicate Monotone(steps: seq<Step>, since: nat) {
    steps != [] ==> since <= steps[0].now && Monotone(steps[1..], steps[0].now)
  }

  function WithoutSweeps(steps: seq<Step>): seq<Step> {
    if steps == [] then []
    else (if steps[0].Sweep? then [] else [steps[0]]) + WithoutSweeps(steps[1..])
  }

  /** What has expired stays expired. */
  lemma LiveLater(a: Sessions, b: Sessions, since: nat, now: nat)
    requires since <= now && Live(a, since) == Live(b, since)
    ensures Live(a, now) == Live(b, now) && Live(Live(a, since), now) == Live(a, now)
  {
    forall id ensures id in Live(a, now) <==> id in Live(b, now) {
      assert id in Live(a, since) <==> id in Live(b, since);
    }
    forall id | id in Live(a, now) ensures a[id] == b[id] {
      assert Live(a, since)[id] == Live(b, since)[id];
    }
  }

  lemma SetLive(m: Sessions, id: Id, s: Session, now: nat)
    requires !Expired(s, now)
    ensures Live(m[id := s], now) == Live(m, now)[id := s]
  {}

  lemma DropLive(m: Sessions, id: Id, now: nat)
    requires id !in Live(m, now)
    ensures Live(m - {id}, now) == Live(m, now)
  {}

  /** What a request is told, and the live sessions it leaves, from the live sessions alone. */
  lemma ResolvedIs(m: Sessions, cookie: Option<bytes>, newId: Id, now: nat)
    ensures var live := Live(m, now);
            var found := cookie.Some? && IsSessionId(cookie.value) && cookie.value in live;
            var id := if found then cookie.value else newId;
            var s := if found then live[id].(lastAccessed := now) else Session(now, now, map[]);
            var (m', v) := Resolved(m, cookie, newId, now);
            && v == Visit(id, VisitsOf(s) + 1, !found)
            && Live(m', now) == live[id := s.(data := s.data[VISIT_COUNT := Dec(v.count)])]
  {
    hide VisitsOf, IsSessionId, Dec;
    var live := Live(m, now);
    var known := cookie.Some? && IsSessionId(cookie.value);
    assert forall id :: id in m && Expired(m[id], now) ==> id !in live;
    var (m1, found) := if known then Touched(m, cookie.value, now) else (m, false);
    assert found <==> known && cookie.value in live;
    var id := if found then cookie.value else newId;
    var s := if found then live[id].(lastAccessed := now) else Session(now, now, map[]);
    var s' := s.(data := s.data[VISIT_COUNT := Dec(VisitsOf(s) + 1)]);
    if known && !found { DropLive(m, cookie.value, now); }
    var base := if found then m else m1;
    assert Live(base, now) == live;
    SetLive(base, id, s, now);
    SetLive(base[id := s], id, s', now);
    hide Live;
    var m2 := if found then m1 else Created(m1, newId, now);
    assert m2 == base[id := s];
    assert Touched(m2, id, now).0 == base[id := s];
    assert live[id := s][id := s'] == live[id := s'];
  }

  /** Only live sessions matter to a request. */
  lemma ResolvedLive(a: Sessions, b: Sessions, cookie: Option<bytes>, newId: Id, now: nat)
    requires Live(a, now) == Live(b, now)
    ensures Resolved(a, cookie, newId, now).1 == Resolved(b, cookie, newId, now).1
    ensures Live(Resolved(a, cookie, newId, now).0, now) == Live(Resolved(b, cookie, newId, now).0, now)
  {
    hide Live, Resolved, VisitsOf, IsSessionId, Dec;
    ResolvedIs(a, cookie, newId, now);
    ResolvedIs(b, cookie, newId, now);
  }

  lemma {:induction false} SweepsInvisibleFrom(a: Sessions, b: Sessions, steps: seq<Step>, since: nat)
    requires Monotone(steps, since) && Live(a, since) == Live(b, since)
    ensures Run(a, steps).1 == Run(b, WithoutSweeps(steps)).1
    decreases |steps|
  {
    hide Live, Resolved;
    if steps != [] {
      var now := steps[0].now;
      LiveLater(a, b, since, now);
      var rest := WithoutSweeps(steps[1..]);
      if steps[0].Sweep? {
        LiveLater(a, b, now, now);
        SweepsInvisibleFrom(Live(a, now), b, steps[1..], now);
        assert WithoutSweeps(steps) == rest;
      } else {
        var r := steps[0];
        ResolvedLive(a, b, r.cookie, r.newId, now);
        SweepsInvisibleFrom(Resolved(a, r.cookie, r.newId, now).0, Resolved(b, r.cookie, r.newId, now).0, steps[1..], now);
        assert WithoutSweeps(steps) == [r] + rest && ([r] + rest)[1..] == rest;
      }
    }
  }

  /** Sweeping is invisible: however sweeps are put in between requests, every
      request is told the same.  Expiry is the TTL and nothing else. */
  lemma SweepsInvisible(m: Sessions, swept: seq<Step>, also: seq<Step>, since: nat)
    requires Monotone(swept, since) && Monotone(also, since) && WithoutSweeps(swept) == WithoutSweeps(also)
    ensures Run(m, swept).1 == Run(m, also).1
  {
    SweepsInvisibleFrom(m, m, swept, since);
    SweepsInvisibleFrom(m, m, also, since);
  }

  // --------------------------------------------------------------------- counting

  function Occurrences(visits: seq<Visit>, id: Id): nat {
    if visits == [] then 0
    else Occurrences(visits[..|visits| - 1], id) + if visits[|visits| - 1].id == id then 1 else 0
  }

  /** Generated ids are new: different from each other and from those seen before. */
  predicate FreshIds(steps: seq<Step>, past: seq<Visit>) {
    && (forall i :: 0 <= i < |steps| && steps[i].Request? ==> Occurrences(past, steps[i].newId) == 0)
    && (forall i, j :: 0 <= i < j < |steps| && steps[i].Request? && steps[j].Request? ==> steps[i].newId != steps[j].newId)
  }

  /** The counter of every stored session is the number of visits to it so far. */
  predicate Counts(m: Sessions, past: seq<Visit>) {
    forall id :: id in m ==> VisitsOf(m[id]) == Occurrences(past, id) >= 1
  }

  lemma OccurrencesAppend(visits: seq<Visit>, v: Visit, id: Id)
    ensures Occurrences(visits + [v], id) == Occurrences(visits, id) + if v.id == id then 1 else 0
  {
    assert (visits + [v])[..|visits|] == visits;
  }

  lemma {:induction false} OccurrencesBound(visits: seq<Visit>, id: Id)
    ensures Occurrences(visits, id) <= |visits|
  {
    if visits != [] { OccurrencesBound(visits[..|visits| - 1], id); }
  }

  lemma VisitsStored(s: Session, count: nat)
    requires count <= USIZE_MAX
    ensures VisitsOf(s.(data := s.data[VISIT_COUNT := Dec(count)])) == count
  {
    ReadOfPrint(count, 10);
    hide FromStrRadix, Dec;
  }

  lemma ResolvedCounts(m: Sessions, past: seq<Visit>, cookie: Option<bytes>, newId: Id, now: nat)
    requires Counts(m, past) && Occurrences(past, newId) == 0 && |past| < USIZE_MAX
    ensures var (m', v) := Resolved(m, cookie, newId, now);
            && v.count == Occurrences(past + [v], v.id) && (v.isNew <==> v.count == 1)
            && (if v.isNew then v.id == newId else Occurrences(past, v.id) >= 1)
            && Counts(m', past + [v])
  {
    hide VisitsOf, IsSessionId, Dec, Occurrences;
    var (m', v) := Resolved(m, cookie, newId, now);
    var known := cookie.Some? && IsSessionId(cookie.value);
    var (m1, found) := if known then Touched(m, cookie.value, now) else (m, false);
    var m2 := if found then m1 else Created(m1, newId, now);
    var session := Touched(m2, v.id, now).0[v.id];
    assert VisitsOf(session) == Occurrences(past, v.id) by { SameVisits(m, m2, session, v.id, found); }
    OccurrencesBound(past, v.id);
    VisitsStored(session, v.count);
    OccurrencesAppend(past, v, v.id);
    forall id | id in m' ensures VisitsOf(m'[id]) == Occurrences(past + [v], id) >= 1 {
      OccurrencesAppend(past, v, id);
      if id != v.id { assert id in m && m'[id] == m[id]; }
    }
  }

  /** Touching keeps the counter; a new session has none. */
  lemma SameVisits(m: Sessions, m2: Sessions, s: Session, id: Id, found: bool)
    requires id in m2
    requires if found then id in m && s.data == m[id].data else s.data == map[]
    ensures VisitsOf(s) == if found then VisitsOf(m[id]) else 0
  {
    hide FromStrRadix;
  }

  /** Visit `k` carries the number of visits to its session up to and including it. */
  predicate IsCounted(past: seq<Visit>, visits: seq<Visit>, k: nat)
    requires k < |visits|
  {
    && visits[k].count == Occurrences(past + visits[..k + 1], visits[k].id)
    && (visits[k].isNew <==> visits[k].count == 1)
  }

  predicate AllCounted(past: seq<Visit>, visits: seq<Visit>) {
    forall k :: 0 <= k < |visits| ==> IsCounted(past, visits, k)
  }

  lemma {:induction false} VisitsCountedFrom(m: Sessions, past: seq<Visit>, steps: seq<Step>)
    requires Counts(m, past) && FreshIds(steps, past) && |past| + |steps| <= USIZE_MAX
    ensures AllCounted(past, Run(m, steps).1)
    decreases |steps|
  {
    hide Resolved, Counts, Live, Occurrences;
    if steps != [] {
      if steps[0].Sweep? {
        LiveCounts(m, past, steps[0].now);
        FreshRest(steps, past, past);
        VisitsCountedFrom(Live(m, steps[0].now), past, steps[1..]);
      } else {
        var r := steps[0];
        ResolvedCounts(m, past, r.cookie, r.newId, r.now);
        var (m', v) := Resolved(m, r.cookie, r.newId, r.now);
        StillFresh(steps, past, v);
        VisitsCountedFrom(m', past + [v], steps[1..]);
        var later := Run(m', steps[1..]).1;
        var visits := Run(m, steps).1;
        assert visits == [v] + later;
        forall k | 0 <= k < |visits|
          ensures IsCounted(past, visits, k)
        {
          if k == 0 {
            assert visits[..1] == [v];
          } else {
            assert IsCounted(past + [v], later, k - 1);
            assert past + visits[..k + 1] == past + [v] + later[..k];
          }
        }
      }
    }
  }

  lemma LiveCounts(m: Sessions, past: seq<Visit>, now: nat)
    requires Counts(m, past)
    ensures Counts(Live(m, now), past)
  {
    hide VisitsOf, Occurrences;
  }

  lemma FreshRest(steps: seq<Step>, past: seq<Visit>, now: seq<Visit>)
    requires steps != [] && FreshIds(steps, past)
    requires forall i :: 0 < i < |steps| && steps[i].Request? ==> Occurrences(now, steps[i].newId) == 0
    ensures FreshIds(steps[1..], now)
  {
    hide Occurrences;
  }

  lemma StillFresh(steps: seq<Step>, past: seq<Visit>, v: Visit)
    requires steps != [] && steps[0].Request? && FreshIds(steps, past)
    requires v.id == steps[0].newId || Occurrences(past, v.id) >= 1
    ensures FreshIds(steps[1..], past + [v])
  {
    hide Occurrences;
    forall i | 0 < i < |steps| && steps[i].Request? ensures Occurrences(past + [v], steps[i].newId) == 0 {
      OccurrencesAppend(past, v, steps[i].newId);
    }
    FreshRest(steps, past, past + [v]);
  }

  /** In every run of an empty store, the k-th request resolved to a session is told
      k, whatever cookies clients present and however often sessions are swept. */
  lemma VisitsCounted(steps: seq<Step>)
    requires FreshIds(steps, []) && |steps| <= USIZE_MAX
    ensures AllCounted([], Run(map[], steps).1)
  {
    VisitsCountedFrom(map[], [], steps);
  }

  // ------------------------------------------------------------ generated ids

  type Octet = n: nat | n < 256

  /** `generate`: two hexadecimal digits for each byte. */
  function IdOf(random: seq<Octet>): Id {
    if random == [] then [] else [DigitByte(random[0] / 16), DigitByte(random[0] % 16)] + IdOf(random[1..])
  }

  lemma {:induction false} IdDigits(random: seq<Octet>)
    ensures |IdOf(random)| == 2 * |random|
    ensures forall i :: 0 <= i < |IdOf(random)| ==> IsNumeral(IdOf(random)[i])
  {
    if random != [] { IdDigits(random[1..]); }
  }

  /** Every id the store hands out is recognised in a cookie. */
  lemma GeneratedIsId(random: seq<Octet>)
    requires |random| == 16
    ensures IsSessionId(IdOf(random))
  {
    IdDigits(random);
  }

  /** Different random bytes give different ids. */
  lemma {:induction false} IdsDiffer(a: seq<Octet>, b: seq<Octet>)
    requires |a| == |b| && IdOf(a) == IdOf(b)
    ensures a == b
  {
    if a != [] {
      var x, y := IdOf(a), IdOf(b);
      assert x[0] == y[0] && x[1] == y[1];
      DigitsDiffer(a[0] / 16, b[0] / 16);
      DigitsDiffer(a[0] % 16, b[0] % 16);
      assert x[2..] == IdOf(a[1..]) && y[2..] == IdOf(b[1..]);
      IdsDiffer(a[1..], b[1..]);
      assert a == [a[0]] + a[1..] && b == [b[0]] + b[1..];
    }
  }

  lemma DigitsDiffer(d: nat, e: nat)
    requires d < 16 && e < 16 && DigitByte(d) == DigitByte(e)
    ensures d == e
  {}

  // -------------------------------------------------------------- coming back

  /** Nobody else comes with this id, and none of these steps is later than that. */
  predicate Elsewhere(steps: seq<Step>, id: Id, until: nat) {
    forall i :: 0 <= i < |steps| ==>
      steps[i].now <= until && (steps[i].Request? ==> steps[i].cookie != Some(id) && steps[i].newId != id)
  }

  lemma ElsewhereRest(steps: seq<Step>, id: Id, until: nat)
    requires steps != [] && Elsewhere(steps, id, until)
    ensures Elsewhere(steps[1..], id, until) && steps[0].now <= until
    ensures steps[0].Request? ==> steps[0].cookie != Some(id) && steps[0].newId != id
  {}

  /** A request for another session leaves this one alone. */
  lemma OtherRequest(m: Sessions, cookie: Option<bytes>, newId: Id, now: nat, id: Id)
    requires id in m && cookie != Some(id) && newId != id
    ensures var m' := Resolved(m, cookie, newId, now).0; id in m' && m'[id] == m[id]
  {
    hide VisitsOf, IsSessionId, Dec;
  }

  /** A session is kept for thirty minutes after its last access. */
  lemma {:induction false} KeptInStore(m: Sessions, steps: seq<Step>, id: Id)
    requires id in m && Elsewhere(steps, id, m[id].lastAccessed + 1_800_000)
    ensures var m' := Run(m, steps).0; id in m' && m'[id] == m[id]
    decreases |steps|
  {
    hide Resolved, Elsewhere;
    if steps != [] {
      ElsewhereRest(steps, id, m[id].lastAccessed + 1_800_000);
      match steps[0]
      case Sweep(now) =>
        KeptInStore(Live(m, now), steps[1..], id);
      case Request(cookie, newId, now) =>
        OtherRequest(m, cookie, newId, now, id);
        KeptInStore(Resolved(m, cookie, newId, now).0, steps[1..], id);
    }
  }

  /** A request that comes with the id of a stored session is told that session, one visit further,
      exactly if the last access was at most thirty minutes ago; otherwise it gets a new one. */
  lemma ResolvedIff(m: Sessions, id: Id, newId: Id, now: nat)
    requires id in m && IsSessionId(id) && newId != id
    ensures var v := Resolved(m, Some(id), newId, now).1;
            if now - m[id].lastAccessed <= 1_800_000
            then v == Visit(id, VisitsOf(m[id]) + 1, false)
            else v.id == newId && v.isNew
  {
    hide IsSessionId, Dec, FromStrRadix;
  }

  /** What a request leaves in the store under the id it was told. */
  lemma ResolvedLeaves(m: Sessions, cookie: Option<bytes>, newId: Id, now: nat)
    ensures var (m', v) := Resolved(m, cookie, newId, now);
            && v.id in m' && m'[v.id].lastAccessed == now && (v.count <= USIZE_MAX ==> VisitsOf(m'[v.id]) == v.count)
            && (v.isNew ==> v.id == newId) && (!v.isNew ==> cookie == Some(v.id) && IsSessionId(v.id))
  {
    hide IsSessionId, VisitsOf, Dec;
    var (m', v) := Resolved(m, cookie, newId, now);
    var known := cookie.Some? && IsSessionId(cookie.value);
    var (m1, found) := if known then Touched(m, cookie.value, now) else (m, false);
    var (m2, id) := if found then (m1, cookie.value) else (Created(m1, newId, now), newId);
    var session := Touched(m2, id, now).0[id];
    if v.count <= USIZE_MAX { VisitsStored(session, v.count); }
  }

  /** A client that comes back with the id it was given, while others come and go, finds its session
      with one more visit exactly if it comes within thirty minutes. */
  lemma FoundAgain(m: Sessions, cookie: Option<bytes>, random: seq<Octet>, now: nat, steps: seq<Step>, newId: Id, later: nat)
    requires |random| == 16
    requires var v := Resolved(m, cookie, IdOf(random), now).1;
             v.count <= USIZE_MAX && newId != v.id && Elsewhere(steps, v.id, now + 1_800_000)
    ensures var (m', v) := Resolved(m, cookie, IdOf(random), now);
            var again := Resolved(Run(m', steps).0, Some(v.id), newId, later).1;
            if later - now <= 1_800_000 then again == Visit(v.id, v.count + 1, false) else again.id == newId && again.isNew
  {
    hide Resolved, Elsewhere, IsSessionId, VisitsOf, IdOf, Run;
    var (m', v) := Resolved(m, cookie, IdOf(random), now);
    GeneratedIsId(random);
    ResolvedLeaves(m, cookie, IdOf(random), now);
    KeptInStore(m', steps, v.id);
    ResolvedIff(Run(m', steps).0, v.id, newId, later);
  }
}
