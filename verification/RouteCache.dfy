/** The route cache (internal/link/cache.go): routes are resolved without the lock and
    stored only if the snapshot they were resolved against is still the current one.
    `resolve` is a function of the address and the adapters; times are nanoseconds. */
module RouteCache {
  import opened Options

  const ADAPTER_TTL := 5_000_000_000
  const ROUTE_TTL := 10_000_000_000

  type Ip = string
  type Kind = string
  datatype Adapter = Adapter(name: string, kind: Kind, description: string, subnets: seq<string>, addresses: seq<string>)

  /** A slice of adapters: the address of its backing array and what it holds. */
  datatype Snap = Snap(base: nat, items: seq<Adapter>)

  datatype Entry = Entry(kind: Kind, expires: int)

  datatype Cache = Cache(adapters: Snap, fetchedAt: int, valid: bool, routes: map<Ip, Entry>)

  // Comparing snapshots

  method SameStrings(a: seq<string>, b: seq<string>) returns (same: bool)
    ensures same <==> a == b
  {
    if |a| != |b| {
      return false;
    }
    var j := 0;
    while j < |a|
      invariant j <= |a| && a[..j] == b[..j]
    {
      if a[j] != b[j] {
        return false;
      }
      j := j + 1;
    }
    assert a[..j] == a && b[..j] == b;
    return true;
  }

  /** sameAdapters: exactly equality of what the adapters say. */
  method SameAdapters(a: seq<Adapter>, b: seq<Adapter>) returns (same: bool)
    ensures same <==> a == b
  {
    if |a| != |b| {
      return false;
    }
    var i := 0;
    while i < |a|
      invariant i <= |a| && a[..i] == b[..i]
    {
      if a[i].name != b[i].name || a[i].kind != b[i].kind || a[i].description != b[i].description {
        return false;
      }
      var sameSubnets := SameStrings(a[i].subnets, b[i].subnets);
      if !sameSubnets {
        return false;
      }
      var sameAddresses := SameStrings(a[i].addresses, b[i].addresses);
      if !sameAddresses {
        return false;
      }
      i := i + 1;
    }
    assert a[..i] == a && b[..i] == b;
    return true;
  }

  /** sameAdapterSlice: the same slice, by length and backing array; any two empty ones are. */
  predicate SameSlice(a: Snap, b: Snap) {
    |a.items| == |b.items| && (a.items == [] || a.base == b.base)
  }

  // The lock sections

  predicate Usable(c: Cache, force: bool, now: int) {
    !force && c.valid && now - c.fetchedAt < ADAPTER_TTL
  }

  /** adaptersLocked: `found` is what an enumeration finds, if one is made. */
  function Refreshed(c: Cache, force: bool, now: int, found: Snap): Cache {
    if Usable(c, force, now) then c
    else if !c.valid || c.adapters.items != found.items then Cache(found, now, true, map[])
    else c.(fetchedAt := now, valid := true)
  }

  function Hit(c: Cache, ip: Ip, now: int): Option<Kind> {
    if ip in c.routes && now < c.routes[ip].expires then Some(c.routes[ip].kind) else None
  }

  function StoredRoute(c: Cache, ip: Ip, kind: Kind, against: Snap, now: int): Cache {
    if SameSlice(c.adapters, against) then c.(routes := c.routes[ip := Entry(kind, now + ROUTE_TTL)]) else c
  }

  class RouteCache {
    var adapters: Snap
    var fetchedAt: int
    var valid: bool
    var routes: map<Ip, Entry>

    ghost function View(): Cache
      reads this
    {
      Cache(adapters, fetchedAt, valid, routes)
    }

    constructor ()
      ensures View() == Cache(Snap(0, []), 0, false, map[])
    {
      adapters, fetchedAt, valid, routes := Snap(0, []), 0, false, map[];
    }

    method AdaptersLocked(force: bool, now: int, found: Snap) returns (a: Snap)
      modifies this
      ensures View() == Refreshed(old(View()), force, now, found) && a == adapters
    {
      if !force && valid && now - fetchedAt < ADAPTER_TTL {
        return adapters;
      }
      var same := SameAdapters(adapters.items, found.items);
      if !valid || !same {
        routes := map[];
        adapters := found;
      }
      fetchedAt := now;
      valid := true;
      return adapters;
    }

    /** The first lock section of kindForIP. */
    method LookUp(ip: Ip, now: int, found: Snap, later: int) returns (a: Snap, hit: Option<Kind>)
      modifies this
      ensures View() == Refreshed(old(View()), false, now, found) && a == adapters
      ensures hit == Hit(View(), ip, later)
    {
      a := AdaptersLocked(false, now, found);
      if ip in routes && later < routes[ip].expires {
        return a, Some(routes[ip].kind);
      }
      return a, None;
    }

    /** The second lock section of kindForIP. */
    method StoreRoute(ip: Ip, kind: Kind, against: Snap, now: int)
      modifies this
      ensures View() == StoredRoute(old(View()), ip, kind, against, now)
    {
      if SameSlice(adapters, against) {
        routes := routes[ip := Entry(kind, now + ROUTE_TTL)];
      }
    }
  }

  // The machine

  datatype Pc =
    | Idle
    | Resolving(ip: Ip, snap: Snap, now: int)            // between the two lock sections
    | Storing(ip: Ip, snap: Snap, now: int, kind: Kind)

  /** An answer of kindForIP and the snapshot that was current in its first lock section. */
  datatype Answer = Answer(ip: Ip, items: seq<Adapter>, kind: Kind)

  /** `made` says what each backing array was allocated with; `latest` is what the most
      recent enumeration found. */
  datatype State = State(cache: Cache, pcs: seq<Pc>, made: seq<seq<Adapter>>, latest: seq<Adapter>, answers: seq<Answer>)

  datatype Event =
    | Gets(force: bool, now: int, found: seq<Adapter>)
    | LooksUp(ip: Ip, now: int, found: seq<Adapter>, later: int)
    | Resolves
    | Stores

  predicate Enabled(s: State, tid: nat, e: Event) {
    && tid < |s.pcs|
    && match e
       case Gets(_, _, _) => s.pcs[tid].Idle?
       case LooksUp(_, _, _, _) => s.pcs[tid].Idle?
       case Resolves => s.pcs[tid].Resolving?
       case Stores => s.pcs[tid].Storing?
  }

  /** The cache after an enumeration, if one was made, into a new backing array. */
  function Enumerated(s: State, force: bool, now: int, found: seq<Adapter>): State {
    var c := Refreshed(s.cache, force, now, Snap(|s.made|, found));
    if Usable(s.cache, force, now) then s
    else s.(cache := c, made := s.made + [found], latest := found)
  }

  function Next(resolve: (Ip, seq<Adapter>) -> Kind, s: State, tid: nat, e: Event): State
    requires Enabled(s, tid, e)
  {
    var pc := s.pcs[tid];
    match e
    case Gets(force, now, found) => Enumerated(s, force, now, found)
    case LooksUp(ip, now, found, later) =>
      var t := Enumerated(s, false, now, found);
      var hit := Hit(t.cache, ip, later);
      if hit.Some? then t.(answers := t.answers + [Answer(ip, t.cache.adapters.items, hit.value)])
      else t.(pcs := t.pcs[tid := Resolving(ip, t.cache.adapters, later)])
    case Resolves => s.(pcs := s.pcs[tid := Storing(pc.ip, pc.snap, pc.now, resolve(pc.ip, pc.snap.items))])
    case Stores =>
      s.(cache := StoredRoute(s.cache, pc.ip, pc.kind, pc.snap, pc.now), pcs := s.pcs[tid := Idle],
         answers := s.answers + [Answer(pc.ip, pc.snap.items, pc.kind)])
  }

  /** A snapshot still holds what its backing array was allocated with. */
  predicate Made(s: State, snap: Snap) {
    snap.items == [] || (snap.base < |s.made| && s.made[snap.base] == snap.items)
  }

  predicate PcOk(resolve: (Ip, seq<Adapter>) -> Kind, s: State, pc: Pc) {
    match pc
    case Idle => true
    case Resolving(_, snap, _) => s.cache.valid && Made(s, snap)
    case Storing(ip, snap, _, kind) => s.cache.valid && Made(s, snap) && kind == resolve(ip, snap.items)
  }

  predicate EntryOk(resolve: (Ip, seq<Adapter>) -> Kind, c: Cache, ip: Ip) {
    ip in c.routes ==> c.routes[ip].kind == resolve(ip, c.adapters.items)
  }

  predicate AnswerOk(resolve: (Ip, seq<Adapter>) -> Kind, a: Answer) {
    a.kind == resolve(a.ip, a.items)
  }

  ghost predicate Inv(resolve: (Ip, seq<Adapter>) -> Kind, s: State) {
    && (forall ip :: EntryOk(resolve, s.cache, ip))
    && (forall tid :: 0 <= tid < |s.pcs| ==> PcOk(resolve, s, s.pcs[tid]))
    && (forall k :: 0 <= k < |s.answers| ==> AnswerOk(resolve, s.answers[k]))
    && Made(s, s.cache.adapters)
    && (s.cache.valid ==> s.cache.adapters.items == s.latest)
    && (!s.cache.valid ==> s.cache.routes == map[] && s.cache.adapters.items == [])
  }

  lemma EnumeratedKeeps(resolve: (Ip, seq<Adapter>) -> Kind, s: State, force: bool, now: int, found: seq<Adapter>)
    requires Inv(resolve, s)
    ensures Inv(resolve, Enumerated(s, force, now, found)) && Enumerated(s, force, now, found).cache.valid
  {
    var t := Enumerated(s, force, now, found);
    forall ip
      ensures EntryOk(resolve, t.cache, ip)
    {
      assert EntryOk(resolve, s.cache, ip);
    }
    forall tid | 0 <= tid < |t.pcs|
      ensures PcOk(resolve, t, t.pcs[tid])
    {
      assert PcOk(resolve, s, s.pcs[tid]);
    }
  }

  lemma StepKeeps(resolve: (Ip, seq<Adapter>) -> Kind, s: State, tid: nat, e: Event)
    requires Inv(resolve, s) && Enabled(s, tid, e)
    ensures Inv(resolve, Next(resolve, s, tid, e))
  {
    var u := Next(resolve, s, tid, e);
    var pc := s.pcs[tid];
    assert PcOk(resolve, s, pc);
    match e
    case Gets(force, now, found) => EnumeratedKeeps(resolve, s, force, now, found);
    case LooksUp(ip, now, found, later) =>
      EnumeratedKeeps(resolve, s, false, now, found);
      var t := Enumerated(s, false, now, found);
      assert EntryOk(resolve, t.cache, ip);
      ThreadMoves(resolve, t, u, tid);
    case Resolves => ThreadMoves(resolve, s, u, tid);
    case Stores => StoresKeeps(resolve, s, tid);
  }

  lemma ThreadMoves(resolve: (Ip, seq<Adapter>) -> Kind, s: State, u: State, tid: nat)
    requires Inv(resolve, s) && tid < |s.pcs| == |u.pcs|
    requires u.pcs == s.pcs[tid := u.pcs[tid]] && u.cache == s.cache && u.made == s.made && u.latest == s.latest
    requires PcOk(resolve, u, u.pcs[tid])
    requires || u.answers == s.answers
             || (|u.answers| == |s.answers| + 1 && u.answers[..|s.answers|] == s.answers
                 && AnswerOk(resolve, u.answers[|s.answers|]))
    ensures Inv(resolve, u)
  {
    forall other | 0 <= other < |u.pcs|
      ensures PcOk(resolve, u, u.pcs[other])
    {
      assert PcOk(resolve, s, s.pcs[other]);
    }
    forall k | 0 <= k < |u.answers|
      ensures AnswerOk(resolve, u.answers[k])
    {
      if k < |s.answers| {
        assert u.answers[k] == u.answers[..|s.answers|][k];
        assert AnswerOk(resolve, s.answers[k]);
      }
    }
  }

  /** The identity test is good enough: what is stored was resolved against adapters equal
      to the current ones. */
  lemma StoresKeeps(resolve: (Ip, seq<Adapter>) -> Kind, s: State, tid: nat)
    requires Inv(resolve, s) && Enabled(s, tid, Stores)
    ensures Inv(resolve, Next(resolve, s, tid, Stores))
  {
    var u := Next(resolve, s, tid, Stores);
    var pc := s.pcs[tid];
    assert PcOk(resolve, s, pc);
    assert SameSlice(s.cache.adapters, pc.snap) ==> s.cache.adapters.items == pc.snap.items;
    var mid := s.(cache := u.cache);
    forall ip
      ensures EntryOk(resolve, mid.cache, ip)
    {
      assert EntryOk(resolve, s.cache, ip);
    }
    forall other | 0 <= other < |mid.pcs|
      ensures PcOk(resolve, mid, mid.pcs[other])
    {
      assert PcOk(resolve, s, s.pcs[other]);
    }
    ThreadMoves(resolve, mid, u, tid);
  }

  // Runs

  datatype Label = Label(tid: nat, e: Event)

  predicate Initial(s: State) {
    && s.cache == Cache(Snap(0, []), 0, false, map[]) && s.made == [] && s.latest == [] && s.answers == []
    && forall tid :: 0 <= tid < |s.pcs| ==> s.pcs[tid] == Idle
  }

  predicate IsStep(resolve: (Ip, seq<Adapter>) -> Kind, s: State, l: Label, u: State) {
    Enabled(s, l.tid, l.e) && u == Next(resolve, s, l.tid, l.e)
  }

  predicate IsRun(resolve: (Ip, seq<Adapter>) -> Kind, states: seq<State>, labels: seq<Label>) {
    && |states| == |labels| + 1 && Initial(states[0])
    && forall k :: 0 <= k < |labels| ==> IsStep(resolve, states[k], labels[k], states[k + 1])
  }

  lemma {:induction false} RunKeeps(resolve: (Ip, seq<Adapter>) -> Kind, states: seq<State>, labels: seq<Label>, k: nat)
    requires IsRun(resolve, states, labels) && k < |states|
    ensures Inv(resolve, states[k])
  {
    if k > 0 {
      RunKeeps(resolve, states, labels, k - 1);
      assert IsStep(resolve, states[k - 1], labels[k - 1], states[k]);
      StepKeeps(resolve, states[k - 1], labels[k - 1].tid, labels[k - 1].e);
    }
  }

  /** Under any interleaving of lookups, forced refreshes and adapter changes, every
      stored route is what resolving against the latest enumeration gives. */
  lemma StoredRoutesAgree(resolve: (Ip, seq<Adapter>) -> Kind, states: seq<State>, labels: seq<Label>, k: nat, ip: Ip)
    requires IsRun(resolve, states, labels) && k < |states| && ip in states[k].cache.routes
    ensures states[k].cache.routes[ip].kind == resolve(ip, states[k].latest)
  {
    RunKeeps(resolve, states, labels, k);
    assert EntryOk(resolve, states[k].cache, ip);
  }

  /** The thread of a lookup has either answered or goes on to resolve, and in both cases
      against the latest enumeration, which is less than five seconds old. */
  lemma LookupSeesLatest(resolve: (Ip, seq<Adapter>) -> Kind, states: seq<State>, labels: seq<Label>, k: nat)
    requires IsRun(resolve, states, labels) && k < |labels| && labels[k].e.LooksUp?
    ensures var s, u, l := states[k], states[k + 1], labels[k];
            && l.tid < |u.pcs| && u.cache.valid && l.e.now - u.cache.fetchedAt < ADAPTER_TTL
            && (if |u.answers| > |s.answers|
                then u.answers == s.answers + [Answer(l.e.ip, u.latest, resolve(l.e.ip, u.latest))] && u.pcs[l.tid] == Idle
                else u.answers == s.answers && u.pcs[l.tid] == Resolving(l.e.ip, Snap(u.cache.adapters.base, u.latest), l.e.later))
  {
    var s, l := states[k], labels[k];
    RunKeeps(resolve, states, labels, k);
    assert IsStep(resolve, s, l, states[k + 1]);
    EnumeratedKeeps(resolve, s, false, l.e.now, l.e.found);
    var t := Enumerated(s, false, l.e.now, l.e.found);
    assert EntryOk(resolve, t.cache, l.e.ip);
  }

  /** So every answer, cached or not, agrees with resolving directly. */
  lemma AnswersAgree(resolve: (Ip, seq<Adapter>) -> Kind, states: seq<State>, labels: seq<Label>, k: nat, a: nat)
    requires IsRun(resolve, states, labels) && k < |states| && a < |states[k].answers|
    ensures states[k].answers[a].kind == resolve(states[k].answers[a].ip, states[k].answers[a].items)
  {
    RunKeeps(resolve, states, labels, k);
    assert AnswerOk(resolve, states[k].answers[a]);
  }

  /** An enumeration drops the routes if and only if it finds something else; finding the
      same keeps the snapshot's identity, so that resolutions under way can be stored. */
  lemma SameAdaptersKeepRoutes(c: Cache, force: bool, now: int, found: Snap)
    requires c.valid && !Usable(c, force, now)
    ensures var r := Refreshed(c, force, now, found);
            && (found.items == c.adapters.items ==>
                  r.routes == c.routes && SameSlice(r.adapters, c.adapters) && r.adapters == c.adapters)
            && (found.items != c.adapters.items ==> r.routes == map[] && r.adapters == found)
  {
  }

  /** A forced refresh always enumerates, and so does one after five seconds: from then on the
      adapters are those just found, as of now. */
  lemma RefreshFinds(c: Cache, force: bool, now: int, found: Snap)
    ensures force || !c.valid || now - c.fetchedAt >= 5_000_000_000 ==>
              var r := Refreshed(c, force, now, found); r.valid && r.fetchedAt == now && r.adapters.items == found.items
    ensures !force && c.valid && now - c.fetchedAt < 5_000_000_000 ==> Refreshed(c, force, now, found) == c
  {
  }

  /** The cache is worth having: a route that was stored answers every lookup of its address
      for ten seconds, without resolving again, as long as the snapshot is less than five
      seconds old or is found unchanged; after that it does not. */
  lemma StoredRouteAnswers(c: Cache, ip: Ip, kind: Kind, against: Snap, stored: int, now: int, found: Snap, later: int)
    requires c.valid && SameSlice(c.adapters, against)
    requires now - c.fetchedAt < 5_000_000_000 || found.items == c.adapters.items
    ensures var u := Refreshed(StoredRoute(c, ip, kind, against, stored), false, now, found);
            && Hit(u, ip, later) == (if later < stored + 10_000_000_000 then Some(kind) else None)
            && u.adapters == c.adapters
            && u.fetchedAt == if now - c.fetchedAt < 5_000_000_000 then c.fetchedAt else now
  {
  }

  /** So a lookup that hits costs no step: the thread answers and stays where it is. */
  lemma HitAnswersAtOnce(resolve: (Ip, seq<Adapter>) -> Kind, s: State, tid: nat, ip: Ip, now: int, found: seq<Adapter>, later: int)
    requires Inv(resolve, s) && tid < |s.pcs| && s.pcs[tid].Idle? && s.cache.valid && now - s.cache.fetchedAt < 5_000_000_000
    requires ip in s.cache.routes && later < s.cache.routes[ip].expires
    ensures var u := Next(resolve, s, tid, LooksUp(ip, now, found, later));
            u == s.(answers := s.answers + [Answer(ip, s.latest, resolve(ip, s.latest))])
  {
    assert EntryOk(resolve, s.cache, ip);
  }
}
