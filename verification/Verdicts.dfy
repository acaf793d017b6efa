/** Which calls are answered, which answers are failures, and what a failed call is said to have failed of. */
module Verdicts {
  import opened Config
  import opened Provenance
  import opened Client

  // ---- read off the script ----

  ghost function Last(w: World): nat { Hops(w) - 1 }

  ghost function LastOutcome(w: World): Outcome { w.hop(Last(w)).outcome }

  /** An answer that names another place, to a client that follows redirects. */
  ghost predicate Redirected(w: World, k: nat) {
    && w.follows
    && var o := w.hop(k).outcome;
       o.Response? && o.status in {301, 302, 303, 307, 308} && o.location != NoLocation
  }

  ghost predicate CanFollow(w: World, k: nat) { Redirected(w, k) && w.hop(k).outcome.location == Follow }

  /** The call ends with an answer of its own: its last hop's, unless that is a redirect nobody may follow. */
  ghost predicate Answered(w: World) { LastOutcome(w).Response? && !Redirected(w, Last(w)) }

  // ---- the walk ----

  lemma {:induction false} WalkEnds(w: World, r: Record, followed: nat)
    requires followed <= MAX_REDIRECTS && |r.hops| == followed
    ensures var (out, v) := Walk(w, r, followed);
            var last := |out.hops| - 1;
            && followed <= last <= MAX_REDIRECTS
            && (forall k | followed <= k < last :: CanFollow(w, k))
            && (CanFollow(w, last) ==> last == MAX_REDIRECTS)
            && v == match w.hop(last).outcome
                    case Error(err) => NetErr(err)
                    case Response(status, inter, _) =>
                      if Redirected(w, last) then NetErr(PlainError) else Answer(status, inter)
    decreases MAX_REDIRECTS - followed
  {
    WalkStep(w, r, followed);
    if Judge(w.follows, w.hop(|r.hops|).outcome, followed).GoOn? {
      WalkEnds(w, Noted(AfterHop(w, r)), followed + 1);
    }
  }

  /** A call goes through the hops that may be followed, up to the first that may not or the twenty-first. */
  lemma HopsAre(w: World)
    ensures Last(w) <= 20
    ensures forall k | 0 <= k < Last(w) :: CanFollow(w, k)
    ensures CanFollow(w, Last(w)) ==> Last(w) == 20
  {
    WalkEnds(w, Start, 0);
  }

  /** What the verdict is, once it is known how the walk ends. */
  lemma AttemptEnds(w: World)
    ensures Attempt(w).1 ==
            match LastOutcome(w)
            case Error(err) => NetErr(err)
            case Response(status, inter, _) =>
              if Redirected(w, Last(w)) then NetErr(PlainError) else Answer(status, inter)
  {
    WalkEnds(w, Start, 0);
  }

  /** A call is live exactly if it ends with an answer below 400; who wrote it follows the path. */
  lemma LiveIff(w: World)
    ensures Classify(w).Live? <==> Answered(w) && LastOutcome(w).status < 400
    ensures Classify(w).Live? ==>
              var res, inter := Classify(w), LastOutcome(w).intermediated;
              && (res.origin == Ambiguous <==> inter) && (res.origin == FromUpstream <==> !inter)
              && (res.state == Unknown <==> inter) && (res.state == ResponseStarted <==> !inter)
  {
    AttemptEnds(w);
  }

  /** A failing answer keeps its status, and its class follows the status, its authorship the path. */
  lemma AnswerFails(w: World)
    requires Answered(w) && LastOutcome(w).status >= 400
    ensures var o := LastOutcome(w);
            && Classify(w).Failed? && Classify(w).status == o.status
            && var f := Classify(w).failure;
               && (f.class_ == Upstream429 <==> o.status == 429)
               && (f.class_ == Upstream5xx <==> o.status >= 500)
               && (f.class_ == ClientError <==> o.status < 500 && o.status != 429)
               && f.phase == ResponseHeaders
               && (f.origin == Ambiguous <==> o.intermediated) && (f.origin == FromUpstream <==> !o.intermediated)
               && (f.state == Unknown <==> o.intermediated) && (f.state == ResponseStarted <==> !o.intermediated)
  {
    AttemptEnds(w);
  }

  /** Everything else fails in transport as a 502: the caller's doing if it gave up, else as the error says. */
  lemma TransportFails(w: World)
    requires !Answered(w)
    ensures Classify(w).Failed? && Classify(w).status == 502
    ensures var f := Classify(w).failure;
            && (f.class_ == ContextCanceled <==> w.canceled)
            && (f.origin == FromClient <==> w.canceled) && (f.origin == FromTransport <==> !w.canceled)
            && (w.canceled ==> f.phase == NoPhase && f.state == Unknown)
            && (!w.canceled ==>
                  var o := LastOutcome(w);
                  && (f.class_ == ProxyAuthError <==> o.Error? && o.err.proxyAuth)
                  && (f.class_ == Timeout <==> o.Error? && !o.err.proxyAuth && o.err.timeout)
                  && (f.class_ == ConnectionError <==> o.Error? ==> !o.err.proxyAuth && !o.err.timeout))
  {
    AttemptEnds(w);
  }

  // ---- where a transport failure happened ----

  ghost predicate Aimed(x: Report, k: nat) { x.hop >= k }

  ghost predicate ReportedDial(xs: seq<Report>, n: nat, k: nat)
    requires n <= |xs|
  {
    exists j | 0 <= j < n :: Aimed(xs[j], k) && xs[j].what.DialOk?
  }

  ghost predicate ReportedSend(xs: seq<Report>, n: nat, k: nat)
    requires n <= |xs|
  {
    exists j | 0 <= j < n :: Aimed(xs[j], k) && xs[j].what.Write?
  }

  ghost predicate Names(x: Report, k: nat) { Aimed(x, k) && (x.what.Begin? || x.what.Enter?) }

  /** The phase last named for the k-th hop, if any was. */
  ghost predicate PhaseNamed(xs: seq<Report>, n: nat, k: nat, p: Phase)
    requires n <= |xs|
  {
    exists j | 0 <= j < n :: Names(xs[j], k) && xs[j].what.p == p && forall i | j < i < n :: !Names(xs[i], k)
  }

  ghost predicate NoneNamed(xs: seq<Report>, n: nat, k: nat)
    requires n <= |xs|
  {
    forall i | 0 <= i < n :: !Names(xs[i], k)
  }

  /** The newest hop's record, read off what was reported while it was the newest. */
  ghost predicate Told(h: Hop, xs: seq<Report>, n: nat, k: nat)
    requires n <= |xs|
  {
    && (h.dialed <==> ReportedBegin(xs, n, k + 1, k))
    && (h.dialOK <==> ReportedDial(xs, n, k))
    && (h.wrote <==> ReportedSend(xs, n, k))
    && (if NoneNamed(xs, n, k) then h.phase == NoPhase else PhaseNamed(xs, n, k, h.phase))
  }

  lemma ToldNext(h: Hop, xs: seq<Report>, n: nat, k: nat)
    requires n < |xs| && Told(h, xs, n, k)
    ensures Told(if Aimed(xs[n], k) then HopStep(h, xs[n].what) else h, xs, n + 1, k)
  {
    BegunNext(xs, n, k);
    NamedNext(h, xs, n, k);
  }

  lemma BegunNext(xs: seq<Report>, n: nat, k: nat)
    requires n < |xs|
    ensures ReportedBegin(xs, n + 1, k + 1, k) <==>
              ReportedBegin(xs, n, k + 1, k) || (xs[n].what.Begin? && Aimed(xs[n], k))
  {
    assert Target(k + 1, xs[n].hop) == k <==> Aimed(xs[n], k);
  }

  lemma NamedNext(h: Hop, xs: seq<Report>, n: nat, k: nat)
    requires n < |xs|
    requires if NoneNamed(xs, n, k) then h.phase == NoPhase else PhaseNamed(xs, n, k, h.phase)
    ensures var h' := if Aimed(xs[n], k) then HopStep(h, xs[n].what) else h;
            if NoneNamed(xs, n + 1, k) then h'.phase == NoPhase else PhaseNamed(xs, n + 1, k, h'.phase)
  {
    if Names(xs[n], k) {
      assert PhaseNamed(xs, n + 1, k, xs[n].what.p);
    } else if !NoneNamed(xs, n, k) {
      var j :| 0 <= j < n && Names(xs[j], k) && xs[j].what.p == h.phase && forall i | j < i < n :: !Names(xs[i], k);
      assert forall i | j < i < n + 1 :: !Names(xs[i], k);
      assert PhaseNamed(xs, n + 1, k, h.phase);
    }
  }

  /** A report reaches the newest hop exactly if it is aimed at it or beyond. */
  lemma DeliveredToLast(r: Record, x: Report)
    requires r.hops != []
    ensures var k := |r.hops| - 1;
            Deliver(r, x).hops[k] == if Aimed(x, k) then HopStep(r.hops[k], x.what) else r.hops[k]
  {
  }

  lemma DeliverToldNext(r: Record, xs: seq<Report>, n: nat, k: nat)
    requires n < |xs| && |r.hops| == k + 1 && Told(DeliverUpTo(r, xs, n).hops[k], xs, n, k)
    ensures Told(DeliverUpTo(r, xs, n + 1).hops[k], xs, n + 1, k)
  {
    ToldNext(DeliverUpTo(r, xs, n).hops[k], xs, n, k);
    DeliveredToLast(DeliverUpTo(r, xs, n), xs[n]);
  }

  lemma DeliverTold(r: Record, xs: seq<Report>, k: nat)
    requires |r.hops| == k + 1 && r.hops[k] == FreshHop
    ensures Told(DeliverAll(r, xs).hops[k], xs, |xs|, k)
  {
    for n := 0 to |xs|
      invariant Told(DeliverUpTo(r, xs, n).hops[k], xs, n, k)
    {
      DeliverToldNext(r, xs, n, k);
    }
  }

  ghost predicate LastTold(w: World, r: Record) {
    && r.hops != []
    && var k := |r.hops| - 1;
       Told(r.hops[k], w.hop(k).reports, |w.hop(k).reports|, k)
  }

  lemma {:induction false} WalkTold(w: World, r: Record, followed: nat)
    requires followed <= MAX_REDIRECTS
    ensures LastTold(w, Walk(w, r, followed).0)
    decreases MAX_REDIRECTS - followed
  {
    WalkStep(w, r, followed);
    DeliverTold(Open(r), w.hop(|r.hops|).reports, |r.hops|);
    if Judge(w.follows, w.hop(|r.hops|).outcome, followed).GoOn? {
      WalkTold(w, Noted(AfterHop(w, r)), followed + 1);
    }
  }

  ghost predicate Began(xs: seq<Report>, k: nat) { ReportedBegin(xs, |xs|, k + 1, k) }

  ghost predicate DialEnded(xs: seq<Report>, k: nat) { ReportedDial(xs, |xs|, k) }

  ghost predicate Sent(xs: seq<Report>, k: nat) { ReportedSend(xs, |xs|, k) }

  ghost predicate LastNamed(xs: seq<Report>, k: nat, p: Phase) { PhaseNamed(xs, |xs|, k, p) }

  ghost function TransportError(o: Outcome): NetError { if o.Error? then o.err else PlainError }

  /**
   * Where a failure of the k-th hop happened: before a dial of its own nowhere, within it the phase last entered,
   * and after it only what the error itself tells about a request that was being sent.
   */
  ghost predicate HappenedAt(o: Outcome, xs: seq<Report>, k: nat, p: Phase) {
    var err := TransportError(o);
    && (!Began(xs, k) ==> p == NoPhase)
    && (Began(xs, k) && !DialEnded(xs, k) ==> LastNamed(xs, k, p))
    && (Began(xs, k) && DialEnded(xs, k) ==>
          && (p == RequestWrite <==> Sent(xs, k) && !err.timeout && err.op == WriteOp)
          && (p == ResponseHeaders <==> Sent(xs, k) && (err.timeout || err.op == ReadOp))
          && (p == NoPhase <==> Sent(xs, k) ==> !err.timeout && err.op == NoDirection))
  }

  lemma AttributedPhase(h: Hop, c: Call, o: Outcome, xs: seq<Report>, k: nat)
    requires Told(h, xs, |xs|, k)
    ensures HappenedAt(o, xs, k, TransportFailure(false, TransportError(o), h, c).phase)
  {
    if h.dialed {
      var j :| 0 <= j < |xs| && xs[j].what.Begin? && Target(k + 1, xs[j].hop) == k;
      assert Names(xs[j], k);
    }
  }

  lemma TransportIs(w: World)
    requires !Answered(w) && !w.canceled
    ensures var r, err := Attempt(w).0, TransportError(LastOutcome(w));
            && r.hops != [] && Attempt(w).1 == NetErr(err)
            && Classify(w) == Failed(TransportFailure(false, err, r.hops[|r.hops| - 1], r.call), 502)
  {
    AttemptEnds(w);
  }

  /** Where a transport failure of a live caller's call happened, read off its last hop. */
  lemma PhaseIs(w: World)
    requires !Answered(w) && !w.canceled
    ensures Classify(w).Failed?
    ensures HappenedAt(LastOutcome(w), w.hop(Last(w)).reports, Last(w), Classify(w).failure.phase)
  {
    var r, k := Attempt(w).0, Last(w);
    WalkTold(w, Start, 0);
    TransportIs(w);
    AttributedPhase(r.hops[k], r.call, LastOutcome(w), w.hop(k).reports, k);
  }

  ghost predicate Admits(s: RequestState, answered: bool, dialed: bool, wrote: bool) {
    && (s == ResponseStarted <==> answered)
    && (s == NotSent <==> dialed && !wrote && !answered)
  }

  lemma AttributedState(h: Hop, c: Call, err: NetError)
    requires h.wrote ==> c.transmitted
    ensures Admits(TransportFailure(false, err, h, c).state, c.responded, h.dialed, c.transmitted)
  {
  }

  /** How much of the request a transport failure admits: an answer, nothing at all, or that it cannot tell. */
  lemma StateIs(w: World)
    requires !Answered(w) && !w.canceled
    ensures Classify(w).Failed?
    ensures Admits(Classify(w).failure.state, SomeResponded(w, Hops(w)), LastHopDialed(w), Wrote(w))
  {
    var r := Attempt(w).0;
    WalkFacts(w, Start, 0);
    TransportIs(w);
    AttributedState(r.hops[|r.hops| - 1], r.call, TransportError(LastOutcome(w)));
    TellsAnswers(w, r);
  }

  lemma TellsAnswers(w: World, r: Record)
    requires Client.Told(w, r, NetErr(PlainError))
    ensures r.call.responded <==> SomeResponded(w, |r.hops|)
  {
  }

  ghost predicate EndpointPhase(p: Phase) {
    p in {ProxyConnect, ProxyTLS, ProxyAuth, Socks5Greeting, Socks5Auth, ConnectWrite}
  }

  /** The k-th hop broke off dialing, in a phase performed against the egress itself. */
  ghost predicate BrokeOff(xs: seq<Report>, k: nat) {
    Began(xs, k) && !DialEnded(xs, k) && exists p :: LastNamed(xs, k, p) && EndpointPhase(p)
  }

  lemma Blames(o: Outcome, xs: seq<Report>, k: nat, p: Phase)
    requires HappenedAt(o, xs, k, p)
    ensures EndpointPhase(p) <==> BrokeOff(xs, k)
  {
  }

  /** An egress is blamed exactly when a live caller's last hop broke off dialing, in a phase of the egress itself. */
  lemma BlamedIff(w: World)
    ensures Classify(w).Failed? && MarksEgressHealth(Classify(w).failure) <==>
              !Answered(w) && !w.canceled && BrokeOff(w.hop(Last(w)).reports, Last(w))
  {
    if Answered(w) {
      AnswersBlameNobody(w);
    } else {
      TransportFails(w);
      if !w.canceled {
        PhaseIs(w);
        Blames(LastOutcome(w), w.hop(Last(w)).reports, Last(w), Classify(w).failure.phase);
      }
    }
  }

  lemma AnswersBlameNobody(w: World)
    requires Answered(w)
    ensures Classify(w).Failed? ==> !MarksEgressHealth(Classify(w).failure)
  {
    AttemptEnds(w);
  }
}
