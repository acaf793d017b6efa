/** One logical upstream call: a walk over redirect hops, each with its own dial record. */
module Client {
  import opened Config
  import opened Provenance

  const MAX_REDIRECTS: nat := 20

  /** A reported event, aimed at the hop it belongs to: an abandoned hop may still report late. */
  datatype Report = Report(hop: nat, what: HopEvent)

  datatype Location = NoLocation | Unparsable | NotHttp | LeavesHost | Follow

  datatype Outcome =
    | Error(err: NetError)
    | Response(status: int, intermediated: bool, location: Location)

  /** What the environment does during one hop. */
  datatype HopScript = HopScript(reports: seq<Report>, outcome: Outcome)

  /** Everything outside this process that one call depends on. */
  datatype World = World(follows: bool, hop: nat -> HopScript, canceled: bool)

  datatype Record = Record(call: Call, hops: seq<Hop>)

  datatype Verdict = NetErr(err: NetError) | Answer(status: int, intermediated: bool)

  const PlainError := NetError(false, false, NoDirection)

  predicate IsRedirect(status: int) { status in {301, 302, 303, 307, 308} }

  function Target(hops: nat, aimed: nat): nat
    requires hops > 0
  {
    if aimed < hops then aimed else hops - 1
  }

  function Deliver(r: Record, x: Report): Record
    requires r.hops != []
  {
    var k := Target(|r.hops|, x.hop);
    Record(r.call.(transmitted := r.call.transmitted || x.what.Write?), r.hops[k := HopStep(r.hops[k], x.what)])
  }

  function DeliverUpTo(r: Record, xs: seq<Report>, n: nat): (out: Record)
    requires r.hops != [] && n <= |xs|
    ensures |out.hops| == |r.hops|
  {
    if n == 0 then r else Deliver(DeliverUpTo(r, xs, n - 1), xs[n - 1])
  }

  function DeliverAll(r: Record, xs: seq<Report>): (out: Record)
    requires r.hops != []
    ensures |out.hops| == |r.hops|
  {
    DeliverUpTo(r, xs, |xs|)
  }

  function Open(r: Record): Record { r.(hops := r.hops + [FreshHop]) }

  /** A followed redirect is a response the whole call received. */
  function Noted(r: Record): Record { r.(call := r.call.(responded := true)) }

  /** What a hop's outcome means for the call: is it an answered redirect, and does the walk end here? */
  datatype Judgement = End(noted: bool, v: Verdict) | GoOn

  function Judge(follows: bool, outcome: Outcome, followed: nat): Judgement {
    match outcome
    case Error(err) => End(false, NetErr(err))
    case Response(status, inter, location) =>
      if !follows || !IsRedirect(status) then End(false, Answer(status, inter))
      else match location
           case NoLocation => End(true, Answer(status, inter))
           case Unparsable | NotHttp | LeavesHost => End(true, NetErr(PlainError))
           case Follow => if followed + 1 > MAX_REDIRECTS then End(true, NetErr(PlainError)) else GoOn
  }

  function AfterHop(w: World, r: Record): (out: Record)
    ensures |out.hops| == |r.hops| + 1
  {
    DeliverAll(Open(r), w.hop(|r.hops|).reports)
  }

  /** The redirect walk, after `followed` redirects. */
  function Walk(w: World, r: Record, followed: nat): (out: (Record, Verdict))
    requires followed <= MAX_REDIRECTS
    ensures |out.0.hops| > |r.hops|
    decreases MAX_REDIRECTS - followed
  {
    var r1 := AfterHop(w, r);
    match Judge(w.follows, w.hop(|r.hops|).outcome, followed)
    case End(noted, v) => (if noted then Noted(r1) else r1, v)
    case GoOn => Walk(w, Noted(r1), followed + 1)
  }

  lemma WalkStep(w: World, r: Record, followed: nat)
    requires followed <= MAX_REDIRECTS
    ensures var r1, j := AfterHop(w, r), Judge(w.follows, w.hop(|r.hops|).outcome, followed);
            && (j.End? ==> Walk(w, r, followed) == (if j.noted then Noted(r1) else r1, j.v))
            && (j.GoOn? ==> followed < MAX_REDIRECTS && Walk(w, r, followed) == Walk(w, Noted(r1), followed + 1))
  {
  }

  const Start := Record(Call(false, false), [])

  function Attempt(w: World): (Record, Verdict) { Walk(w, Start, 0) }

  /** The verdict of one call, as the executor receives it. */
  datatype CallResult = Live(origin: Origin, state: RequestState) | Failed(failure: Failure, status: int)

  function Classify(w: World): CallResult {
    var (r, v) := Attempt(w);
    match v
    case NetErr(err) => Failed(TransportFailure(w.canceled, err, r.hops[|r.hops| - 1], r.call), 502)
    case Answer(status, inter) =>
      if status >= 400 then Failed(StatusFailure(status, inter), status)
      else Live(ResponseOrigin(inter), ResponseState(inter))
  }

  // ---- the call as the client performs it ----

  ghost function View(call: CallTrace, hops: seq<DialTrace>): (r: Record)
    reads call, hops
    ensures |r.hops| == |hops|
  {
    Record(call.View(), seq(|hops|, i requires 0 <= i < |hops| reads call, hops => hops[i].View()))
  }

  ghost predicate Bound(call: CallTrace, hops: seq<DialTrace>) {
    && (forall i | 0 <= i < |hops| :: hops[i].call == call)
    && (forall i, j | 0 <= i < j < |hops| :: hops[i] != hops[j])
  }

  method Report1(call: CallTrace, hops: seq<DialTrace>, x: Report)
    requires Bound(call, hops) && hops != []
    modifies call, hops
    ensures View(call, hops) == Deliver(old(View(call, hops)), x)
  {
    ghost var before := View(call, hops);
    var k := Target(|hops|, x.hop);
    hops[k].Record(x.what);
    ghost var after := View(call, hops);
    assert forall i | 0 <= i < |hops| :: after.hops[i] == Deliver(before, x).hops[i];
  }

  /** Opens the next hop: a fresh dial record bound to the call, then whatever the transport reports. */
  method RunHop(w: World, call: CallTrace, hops: seq<DialTrace>) returns (next: seq<DialTrace>)
    requires Bound(call, hops)
    modifies call, hops
    ensures |next| == |hops| + 1 && (forall i | 0 <= i < |hops| :: next[i] == hops[i]) && fresh(next[|hops|])
    ensures Bound(call, next)
    ensures View(call, next) == AfterHop(w, old(View(call, hops)))
  {
    ghost var before := View(call, hops);
    var reports := w.hop(|hops|).reports;
    var hop := new DialTrace(call);
    next := hops + [hop];
    ghost var started := View(call, next);
    assert forall i | 0 <= i < |next| :: started.hops[i] == Open(before).hops[i];
    assert started == Open(before);
    for i := 0 to |reports|
      invariant View(call, next) == DeliverUpTo(started, reports, i)
    {
      Report1(call, next, reports[i]);
    }
  }

  /** Decides what a hop's outcome means, noting an answered redirect on the call before looking further. */
  method JudgeHop(follows: bool, outcome: Outcome, followed: nat, call: CallTrace) returns (j: Judgement)
    modifies call
    ensures j == Judge(follows, outcome, followed)
    ensures call.View() == if j.GoOn? || j.noted then old(call.View()).(responded := true) else old(call.View())
  {
    if outcome.Error? {
      return End(false, NetErr(outcome.err));
    }
    if !follows || !IsRedirect(outcome.status) {
      return End(false, Answer(outcome.status, outcome.intermediated));
    }
    call.NoteResponse();
    match outcome.location {
      case NoLocation =>
        j := End(true, Answer(outcome.status, outcome.intermediated));
      case Unparsable =>
        j := End(true, NetErr(PlainError));
      case NotHttp =>
        j := End(true, NetErr(PlainError));
      case LeavesHost =>
        j := End(true, NetErr(PlainError));
      case Follow =>
        if followed + 1 > MAX_REDIRECTS {
          j := End(true, NetErr(PlainError));
        } else {
          j := GoOn;
        }
    }
  }

  /** One iteration of the walk: it ends as the walk from here does, or goes on to it. */
  method WalkHop(w: World, call: CallTrace, hops: seq<DialTrace>, followed: nat)
    returns (next: seq<DialTrace>, end: Option<Verdict>)
    requires Bound(call, hops) && followed <= MAX_REDIRECTS
    modifies call, hops
    ensures |next| == |hops| + 1 && (forall i | 0 <= i < |hops| :: next[i] == hops[i]) && fresh(next[|hops|])
    ensures Bound(call, next)
    ensures end.Some? ==> (View(call, next), end.value) == Walk(w, old(View(call, hops)), followed)
    ensures end.None? ==> followed < MAX_REDIRECTS
    ensures end.None? ==> Walk(w, View(call, next), followed + 1) == Walk(w, old(View(call, hops)), followed)
  {
    WalkStep(w, View(call, hops), followed);
    next := RunHop(w, call, hops);
    ghost var r1 := View(call, next);
    var j := JudgeHop(w.follows, w.hop(|hops|).outcome, followed, call);
    assert forall i | 0 <= i < |next| :: View(call, next).hops[i] == r1.hops[i];
    assert View(call, next) == if j.GoOn? || j.noted then Noted(r1) else r1;
    end := if j.End? then Some(j.v) else None;
  }

  /** The walk of a call none of whose hops is open yet, after `already` redirects. */
  method FollowHops(w: World, call: CallTrace, already: nat) returns (hops: seq<DialTrace>, v: Verdict)
    requires already <= MAX_REDIRECTS
    modifies call
    ensures (forall i | 0 <= i < |hops| :: fresh(hops[i])) && Bound(call, hops) && hops != []
    ensures (View(call, hops), v) == Walk(w, Record(old(call.View()), []), already)
  {
    hops := [];
    var followed := already;
    assert View(call, hops) == Record(call.View(), []);
    while true
      invariant followed <= MAX_REDIRECTS
      invariant (forall i | 0 <= i < |hops| :: fresh(hops[i])) && Bound(call, hops)
      invariant Walk(w, View(call, hops), followed) == Walk(w, Record(old(call.View()), []), already)
      decreases MAX_REDIRECTS - followed
    {
      var end;
      hops, end := WalkHop(w, call, hops, followed);
      if end.Some? {
        return hops, end.value;
      }
      followed := followed + 1;
    }
  }

  method RunAttempt(w: World, call: CallTrace) returns (hops: seq<DialTrace>, v: Verdict)
    requires call.View() == Call(false, false)
    modifies call
    ensures (forall i | 0 <= i < |hops| :: fresh(hops[i])) && Bound(call, hops) && hops != []
    ensures (View(call, hops), v) == Attempt(w)
  {
    hops, v := FollowHops(w, call, 0);
  }

  /** One call, one verdict: a response of any status is terminal, a transport error carries its provenance. */
  method DoClassified(w: World) returns (result: CallResult)
    ensures result == Classify(w)
  {
    var call := new CallTrace();
    var hops, v := RunAttempt(w, call);
    match v {
      case NetErr(err) =>
        var hop := hops[|hops| - 1];
        var class_ := ClassifyNetErr(w.canceled, err);
        if class_ == ContextCanceled {
          return Failed(Failure(class_, FromClient, NoPhase, Unknown), 502);
        }
        var phase, state := hop.Provenance(err);
        result := Failed(Failure(class_, FromTransport, phase, state), 502);
      case Answer(status, inter) =>
        if status >= 400 {
          result := Failed(StatusFailure(status, inter), status);
        } else {
          result := Live(ResponseOrigin(inter), ResponseState(inter));
        }
    }
  }

  // ---- what the environment really did, read off the script alone ----

  /** The hops the call went through. */
  ghost function Hops(w: World): (n: nat) ensures n > 0 { |Attempt(w).0.hops| }

  ghost predicate HopWrote(w: World, k: nat) {
    ReportedWrite(w.hop(k).reports, |w.hop(k).reports|)
  }

  ghost predicate HopResponded(w: World, k: nat) { w.hop(k).outcome.Response? }

  ghost predicate HopAnswered(w: World, k: nat) {
    exists j | 0 <= j < |w.hop(k).reports| :: w.hop(k).reports[j].what.Answered?
  }

  /** Some hop of the call handed a request byte to a connection. */
  ghost predicate Wrote(w: World) { exists k | 0 <= k < Hops(w) :: HopWrote(w, k) }

  ghost predicate InnerAnswer(w: World) { exists k | 0 <= k < Hops(w) :: HopAnswered(w, k) }

  /** Some hop of the call received a response. */
  ghost predicate Responded(w: World) {
    InnerAnswer(w) || exists k | 0 <= k < Hops(w) :: HopResponded(w, k)
  }

  /** The hop that delivered the verdict started a dial of its own. */
  ghost predicate LastHopDialed(w: World) {
    HopDialed(w, Hops(w) - 1)
  }

  ghost predicate HopDialed(w: World, k: nat) {
    ReportedBegin(w.hop(k).reports, |w.hop(k).reports|, k + 1, k)
  }

  /** A redirect the standard library followed by itself answered a request it had written. */
  ghost predicate AnswersFollowWrites(w: World) {
    InnerAnswer(w) ==> Wrote(w)
  }

  ghost predicate ReportedWrite(xs: seq<Report>, n: nat)
    requires n <= |xs|
  {
    exists j | 0 <= j < n :: xs[j].what.Write?
  }

  ghost predicate ReportedBegin(xs: seq<Report>, n: nat, hops: nat, k: nat)
    requires n <= |xs| && hops > 0
  {
    exists j | 0 <= j < n :: xs[j].what.Begin? && Target(hops, xs[j].hop) == k
  }

  /** A write recorded on any hop is recorded on the call. */
  ghost predicate Linked(r: Record) {
    forall i | 0 <= i < |r.hops| :: r.hops[i].wrote ==> r.call.transmitted
  }

  lemma {:induction false} DeliverFacts(r: Record, xs: seq<Report>, n: nat)
    requires r.hops != [] && n <= |xs| && Linked(r)
    ensures var out := DeliverUpTo(r, xs, n);
            && Linked(out)
            && (out.call.transmitted <==> r.call.transmitted || ReportedWrite(xs, n))
            && out.call.responded == r.call.responded
            && (forall k | 0 <= k < |r.hops| ::
                  out.hops[k].dialed <==> r.hops[k].dialed || ReportedBegin(xs, n, |r.hops|, k))
  {
    if n > 0 {
      DeliverFacts(r, xs, n - 1);
    }
  }

  /** The records say what the environment did on the hops so far. */
  ghost predicate Faithful(w: World, r: Record) {
    && Linked(r)
    && (r.call.transmitted <==> exists k | 0 <= k < |r.hops| :: HopWrote(w, k))
    && (r.call.responded ==> exists k | 0 <= k < |r.hops| :: HopResponded(w, k))
    && (r.hops != [] ==> (r.hops[|r.hops| - 1].dialed <==> HopDialed(w, |r.hops| - 1)))
  }

  lemma HopFacts(w: World, r: Record)
    requires Faithful(w, r)
    ensures Faithful(w, AfterHop(w, r)) && AfterHop(w, r).call.responded == r.call.responded
  {
    var n, xs := |r.hops|, w.hop(|r.hops|).reports;
    DeliverFacts(Open(r), xs, |xs|);
    var r1 := DeliverAll(Open(r), xs);
    if r1.call.transmitted && !r.call.transmitted {
      assert HopWrote(w, n);
    }
    if k :| 0 <= k < n + 1 && HopWrote(w, k) {
      assert k == n || r.call.transmitted;
    }
  }

  lemma NotedFaithful(w: World, r: Record)
    requires Faithful(w, r) && r.hops != [] && HopResponded(w, |r.hops| - 1)
    ensures Faithful(w, Noted(r))
  {
  }

  ghost predicate SomeResponded(w: World, n: nat) { exists j | 0 <= j < n :: HopResponded(w, j) }

  /** The records are faithful, and a failing call that got a response knows it. */
  ghost predicate Told(w: World, out: Record, v: Verdict) {
    Faithful(w, out) && (v.NetErr? && SomeResponded(w, |out.hops|) ==> out.call.responded)
  }

  /** A call that ends here: only this hop can have got a response the call does not know of. */
  lemma EndTold(w: World, r: Record, r1: Record, j: Judgement)
    requires Faithful(w, r1) && |r1.hops| == |r.hops| + 1 && r1.call.responded == r.call.responded
    requires r.hops != [] ==> r.call.responded
    requires j.End? && (j.noted ==> HopResponded(w, |r.hops|))
    requires HopResponded(w, |r.hops|) && !j.noted ==> j.v.Answer?
    ensures Told(w, if j.noted then Noted(r1) else r1, j.v)
  {
    if j.noted {
      NotedFaithful(w, r1);
    }
    if SomeResponded(w, |r1.hops|) && r.hops == [] {
      assert HopResponded(w, 0);
    }
  }

  lemma {:induction false} WalkFacts(w: World, r: Record, followed: nat)
    requires followed <= MAX_REDIRECTS && Faithful(w, r)
    requires r.hops != [] ==> r.call.responded
    ensures Told(w, Walk(w, r, followed).0, Walk(w, r, followed).1)
    decreases MAX_REDIRECTS - followed
  {
    HopFacts(w, r);
    WalkStep(w, r, followed);
    var r1 := AfterHop(w, r);
    var j := Judge(w.follows, w.hop(|r.hops|).outcome, followed);
    if j.End? {
      EndTold(w, r, r1, j);
    } else {
      NotedFaithful(w, r1);
      WalkFacts(w, Noted(r1), followed + 1);
    }
  }

  /**
   * A call may be replayed exactly when it failed in transport under a live caller, its last hop dialed,
   * and no hop of it wrote a request byte or received a response.
   */
  lemma ReplaySafeIff(w: World)
    ensures AnswersFollowWrites(w) ==>
              (Classify(w).Failed? && ReplaySafe(Classify(w).failure) <==>
               Attempt(w).1.NetErr? && !w.canceled && LastHopDialed(w) && !Wrote(w) && !Responded(w))
  {
    WalkFacts(w, Start, 0);
    var (r, v) := Attempt(w);
    if v.NetErr? {
      NotSentIff(r.hops[|r.hops| - 1], r.call, v.err);
    }
  }

  /** A call the provider or an intermediary answered, or that wrote anything, is never replayed. */
  lemma NeverReplayedOnceSent(w: World)
    ensures AnswersFollowWrites(w) && (Wrote(w) || Responded(w)) ==>
              !(Classify(w).Failed? && ReplaySafe(Classify(w).failure))
  {
    ReplaySafeIff(w);
  }
}
