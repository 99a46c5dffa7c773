/**
The analytics loader: the tracker, its queue of early calls and the session recording, driven by the settings a
deployment sends, the tracker script running and loading, calls to report, and navigation.
*/
module Analytics {
  import opened Prelude

  const MAX_QUEUED_CALLS := 50

  datatype Call = PageView(first: bool) | NamedEvent(name: string)

  /** A call and the page it was made on, where that page could be named. */
  datatype Asked = Asked(call: Call, page: Option<string>)

  /** A call handed to the tracker, and the address the before-send hook let out, if it let it out. */
  datatype Sent = Sent(call: Call, url: Option<string>)

  datatype Replay = Replay(sampleRate: real, showText: bool, recorderPinned: bool)

  /** `scriptPinned` and `recorderPinned` say the integrity value is not blank. */
  datatype Settings = Settings(scriptPinned: bool, replay: Option<Replay>)

  /** The tracker's global: not there yet, there with a session, or replaced by a copy that reports none. */
  datatype Tracker = Absent | Live | Silent

  datatype State = State(
    loaded: bool, queue: seq<Asked>, pageViews: nat, recording: bool, recordingStopped: bool, off: bool)

  /**
  The page. `recorders` counts recorder scripts added. The rest is history: the calls asked for before the load and
  after it, the queue the load drained, and the page the person was on at the load.
  */
  datatype Page = Page(
    state: Option<State>, tracker: Tracker, masked: bool, recorders: nat, location: Option<string>,
    sent: seq<Sent>, early: seq<Asked>, late: seq<Asked>, drained: seq<Asked>, drainedOn: Option<string>)

  function Blank(location: Option<string>): Page { Page(None, Absent, false, 0, location, [], [], [], [], None) }

  /** Where a pattern ends: at the first `?` or `#`. */
  function Cut(s: string): (r: string)
    ensures r <= s && (forall c <- r :: c != '?' && c != '#')
    ensures r < s ==> s[|r|] == '?' || s[|r|] == '#'
  {
    if s == "" || s[0] == '?' || s[0] == '#' then "" else [s[0]] + Cut(s[1..])
  }

  function AsPattern(value: string): string {
    var path := Cut(value);
    if path != "" && path[0] == '/' then path else "/" + path
  }

  /** A path with nothing behind it: a leading slash, no query and no fragment. */
  predicate Bare(url: string) { url != "" && url[0] == '/' && forall c <- url :: c != '?' && c != '#' }

  /** `pageNow`. */
  function PageNow(p: Page): Option<string> {
    match p.location
    case None => None
    case Some(raw) => Some(AsPattern(raw))
  }

  /** The before-send hook, while `queuedPage` is the page of the call being sent. */
  function BeforeSend(p: Page, queuedPage: Option<string>): Option<string> {
    if p.state == None || p.state.value.off then None
    else if queuedPage.Some? then queuedPage
    else PageNow(p)
  }

  function Dispatch(p: Page, a: Asked): Page {
    if p.tracker == Absent then p else p.(sent := p.sent + [Sent(a.call, BeforeSend(p, a.page))])
  }

  function DispatchAll(p: Page, calls: seq<Asked>): Page {
    if calls == [] then p else Dispatch(DispatchAll(p, calls[..|calls| - 1]), calls[|calls| - 1])
  }

  function Enqueue(p: Page, call: Call): Page {
    if p.state == None || p.state.value.off then p else
      var st, a := p.state.value, Asked(call, PageNow(p));
      if st.loaded then Dispatch(p.(late := p.late + [a]), Asked(call, None))
      else
        var p' := p.(early := p.early + [a]);
        if |st.queue| >= MAX_QUEUED_CALLS then p' else p'.(state := Some(st.(queue := st.queue + [a])))
  }

  function TrackPageView(p: Page): Page {
    if p.state == None then p else
      var st := p.state.value;
      Enqueue(p.(state := Some(st.(pageViews := st.pageViews + 1))), PageView(st.pageViews == 0))
  }

  /** The tracker's global becomes a copy that reports no session. */
  function SilenceRecorder(p: Page): Page { if p.tracker == Absent then p else p.(tracker := Silent) }

  /** The load event up to the queue: calls go straight to the tracker from here on. */
  function Loaded(p: Page): Page
    requires p.state.Some?
  {
    var st := p.state.value;
    var p' := p.(state := Some(st.(loaded := true, queue := [])), drained := st.queue, drainedOn := PageNow(p));
    if st.recordingStopped then SilenceRecorder(p') else p'
  }

  function OnTrackerLoad(p: Page): Page { if p.state == None then p else DispatchAll(Loaded(p), p.state.value.queue) }

  function InstallAnalytics(p: Page, s: Settings): Page {
    if p.state.Some? || !s.scriptPinned then p
    else TrackPageView(p.(state := Some(State(false, [], 0, false, false, false))))
  }

  /** `shouldRecordThisVisit`, given what the session's storage answers and one draw from [0, 1). */
  predicate ShouldRecord(sampleRate: real, kept: Option<bool>, draw: real) {
    sampleRate > 0.0 && (sampleRate >= 1.0 || (if kept.Some? then kept.value else draw < sampleRate))
  }

  function StartRecording(p: Page, r: Replay): Page {
    if p.state == None then p else
      var st := p.state.value;
      if st.recording then (if r.showText then p else p.(masked := true))
      else if !r.recorderPinned then p
      else
        p.(state := Some(st.(recording := true)), masked := p.masked || !r.showText, recorders := p.recorders + 1)
  }

  function StopRecording(p: Page): Page {
    if p.state == None || !p.state.value.recording then p
    else SilenceRecorder(p.(state := Some(p.state.value.(recordingStopped := true))))
  }

  function ApplySettings(p: Page, settings: Option<Settings>, kept: Option<bool>, draw: real): Page {
    match p.state
    case None =>
      if settings == None then p else
        var s := settings.value;
        var p' := InstallAnalytics(p, s);
        if s.replay.Some? && ShouldRecord(s.replay.value.sampleRate, kept, draw)
        then StartRecording(p', s.replay.value) else p'
    case Some(st) =>
      if st.off then p
      else if settings == None then StopRecording(p.(state := Some(st.(off := true, queue := []))))
      else if !st.recording then p
      else
        var replay := settings.value.replay;
        if replay == None || !ShouldRecord(replay.value.sampleRate, kept, draw) then StopRecording(p)
        else if !replay.value.showText then p.(masked := true)
        else p
  }

  datatype Event =
    | Apply(settings: Option<Settings>, kept: Option<bool>, draw: real)
    | ScriptRuns
    | Loads
    | TracksPageView
    | TracksEvent(name: string)
    | Navigates(location: Option<string>)

  /** One event. The tracker's script runs at most once, before the one load event it brings. */
  function Next(p: Page, e: Event): Page {
    match e
    case Apply(settings, kept, draw) => ApplySettings(p, settings, kept, draw)
    case ScriptRuns =>
      if p.state.Some? && !p.state.value.loaded && p.tracker == Absent then p.(tracker := Live) else p
    case Loads => if p.state.Some? && !p.state.value.loaded then OnTrackerLoad(p) else p
    case TracksPageView => TrackPageView(p)
    case TracksEvent(name) => if p.state == None then p else Enqueue(p, NamedEvent(name))
    case Navigates(location) => p.(location := location)
  }

  function Run(p: Page, events: seq<Event>): Page {
    if events == [] then p else Next(Run(p, events[..|events| - 1]), events[|events| - 1])
  }

  // --------------------------------------------------------- only ever tighter

  /** The later page captures and sends no more than the earlier one did. */
  predicate Tighter(p: Page, q: Page) {
    p.state.Some? ==>
      && q.state.Some?
      && q.recorders == p.recorders && q.state.value.recording == p.state.value.recording
      && (p.masked ==> q.masked)
      && (p.state.value.recordingStopped ==> q.state.value.recordingStopped)
      && (p.state.value.off ==> q.state.value.off && q.sent == p.sent)
      && (p.state.value.loaded ==>
            q.state.value.loaded && (p.tracker != Live ==> q.tracker == p.tracker) && q.drainedOn == p.drainedOn)
  }

  function Deliveries(p: Page, calls: seq<Asked>): seq<Sent> {
    seq(|calls|, i requires 0 <= i < |calls| => Sent(calls[i].call, BeforeSend(p, calls[i].page)))
  }

  lemma {:induction false} DispatchAllIs(p: Page, calls: seq<Asked>)
    ensures DispatchAll(p, calls) == if p.tracker == Absent then p else p.(sent := p.sent + Deliveries(p, calls))
  {
    if calls == [] {
      assert p.sent + Deliveries(p, calls) == p.sent;
    } else {
      var n := |calls| - 1;
      DispatchAllIs(p, calls[..n]);
      assert Deliveries(p, calls) == Deliveries(p, calls[..n]) + [Sent(calls[n].call, BeforeSend(p, calls[n].page))];
      assert p.sent + Deliveries(p, calls[..n]) + [Sent(calls[n].call, BeforeSend(p, calls[n].page))]
          == p.sent + Deliveries(p, calls);
    }
  }

  /** Each call once, in order, under the page it was made on, or under `otherwise` where that could not be named. */
  function Outgoing(asked: seq<Asked>, otherwise: Option<string>): seq<Sent> {
    seq(|asked|, i requires 0 <= i < |asked| =>
      Sent(asked[i].call, if asked[i].page.Some? then asked[i].page else otherwise))
  }

  /** What the tracker has been handed: a queued call of an unnamed page took the page of the load. */
  function Handed(p: Page): seq<Sent> { Outgoing(p.drained, p.drainedOn) + Outgoing(p.late, None) }

  predicate Pages(asked: seq<Asked>) {
    forall i :: 0 <= i < |asked| && asked[i].page.Some? ==> Bare(asked[i].page.value)
  }

  function First(asked: seq<Asked>): seq<Asked> { asked[..Min(50, |asked|)] }

  predicate StateOk(p: Page, st: State) {
    && Pages(p.early) && Pages(p.late) && (p.drainedOn.Some? ==> Bare(p.drainedOn.value))
    && (st.recordingStopped ==> st.recording) && (st.off && st.recording ==> st.recordingStopped)
    && (st.off ==> st.queue == [])
    && if st.loaded then
         && st.queue == [] && (!st.off ==> p.drained == First(p.early))
         && (st.recordingStopped ==> p.tracker != Live)
         && (if p.tracker == Absent then p.sent == [] else p.sent == Handed(p))
       else
         p.sent == [] && p.late == [] && p.drained == [] && (!st.off ==> st.queue == First(p.early))
  }

  predicate Inv(p: Page) {
    match p.state
    case None => p == Blank(p.location).(masked := p.masked, recorders := p.recorders)
    case Some(st) => StateOk(p, st)
  }

  lemma PageIsBare(p: Page)
    ensures PageNow(p).Some? ==> Bare(PageNow(p).value)
  {}

  lemma DispatchOk(p: Page, call: Call)
    requires Inv(p) && p.state.Some? && p.state.value.loaded && !p.state.value.off
    ensures Inv(Enqueue(p, call)) && Tighter(p, Enqueue(p, call))
  {
    var a := Asked(call, PageNow(p));
    PageIsBare(p);
    assert Outgoing(p.late + [a], None) == Outgoing(p.late, None) + [Sent(call, a.page)];
    assert Handed(p.(late := p.late + [a])) == Handed(p) + [Sent(call, a.page)];
  }

  lemma EnqueueOk(p: Page, call: Call)
    requires Inv(p)
    ensures Inv(Enqueue(p, call)) && Tighter(p, Enqueue(p, call))
  {
    if p.state.Some? && !p.state.value.off {
      var st, a := p.state.value, Asked(call, PageNow(p));
      PageIsBare(p);
      if st.loaded {
        DispatchOk(p, call);
      } else if |st.queue| < MAX_QUEUED_CALLS {
        assert First(p.early + [a]) == First(p.early) + [a];
      } else {
        assert First(p.early + [a]) == First(p.early);
      }
    }
  }

  lemma QueueDelivered(p: Page, queue: seq<Asked>)
    requires p.state.Some? && (queue != [] ==> !p.state.value.off)
    ensures Deliveries(p, queue) == Outgoing(queue, PageNow(p))
  {}

  lemma LoadIs(p: Page)
    requires p.state.Some? && (p.state.value.off ==> p.state.value.queue == [])
    ensures var (q, st) := (Loaded(p), p.state.value);
      OnTrackerLoad(p) == if q.tracker == Absent then q else q.(sent := p.sent + Outgoing(st.queue, PageNow(p)))
  {
    assert PageNow(Loaded(p)) == PageNow(p);
    hide PageNow;
    QueueDelivered(Loaded(p), p.state.value.queue);
    DispatchAllIs(Loaded(p), p.state.value.queue);
    hide DispatchAll, Outgoing, Deliveries;
  }

  lemma LoadTightens(p: Page)
    requires Inv(p) && p.state.Some? && !p.state.value.loaded
    ensures Tighter(p, OnTrackerLoad(p))
  {
    LoadIs(p);
    assert p.state.value.off ==> p.state.value.queue == [] && p.sent == [];
    assert [] + Outgoing([], PageNow(p)) == [];
    hide OnTrackerLoad, Inv, Outgoing, PageNow;
  }

  lemma LoadOk(p: Page)
    requires Inv(p) && p.state.Some? && !p.state.value.loaded
    ensures Inv(OnTrackerLoad(p)) && Tighter(p, OnTrackerLoad(p))
  {
    PageIsBare(p);
    LoadIs(p);
    LoadTightens(p);
    hide Tighter, OnTrackerLoad, Pages, First, Bare, PageNow;
    var q, out := Loaded(p), Outgoing(p.state.value.queue, PageNow(p));
    assert p.sent + out == Handed(q) == Handed(q.(sent := p.sent + out)) by { assert Outgoing([], None) == []; }
    hide Outgoing, Handed;
  }

  lemma FreshOk(p: Page)
    requires Inv(p) && p.state == None
    ensures Inv(p.(state := Some(State(false, [], 1, false, false, false))))
  {}

  /** A call changes nothing but the queue and what is sent. */
  lemma EnqueueKeeps(p: Page, call: Call)
    requires p.state.Some?
    ensures var (q, st) := (Enqueue(p, call), p.state.value);
      && q.state.Some? && q.state.value == st.(queue := q.state.value.queue)
      && q == p.(state := q.state, early := q.early, late := q.late, sent := q.sent)
  {}

  lemma FirstOk(p: Page, settings: Option<Settings>, kept: Option<bool>, draw: real)
    requires Inv(p) && p.state == None
    ensures Inv(ApplySettings(p, settings, kept, draw))
  {
    FreshOk(p);
    hide Outgoing, Pages, First, Enqueue, ShouldRecord;
    EnqueueKeeps(p.(state := Some(State(false, [], 1, false, false, false))), PageView(true));
    EnqueueOk(p.(state := Some(State(false, [], 1, false, false, false))), PageView(true));
  }

  lemma ApplyOk(p: Page, settings: Option<Settings>, kept: Option<bool>, draw: real)
    requires Inv(p)
    ensures Inv(ApplySettings(p, settings, kept, draw)) && Tighter(p, ApplySettings(p, settings, kept, draw))
  {
    hide Outgoing, Pages, First, Enqueue, ShouldRecord;
    if p.state == None { FirstOk(p, settings, kept, draw); } else { hide InstallAnalytics; }
  }

  /** Every event keeps the invariant, and from an installed page only tightens. */
  lemma NextOk(p: Page, e: Event)
    requires Inv(p)
    ensures Inv(Next(p, e)) && Tighter(p, Next(p, e))
  {
    hide Outgoing, Pages, First, ApplySettings, OnTrackerLoad, Enqueue;
    match e
    case Apply(settings, kept, draw) => ApplyOk(p, settings, kept, draw);
    case ScriptRuns =>
    case Loads => if p.state.Some? && !p.state.value.loaded { LoadOk(p); }
    case TracksPageView =>
      if p.state.Some? {
        var st := p.state.value;
        EnqueueOk(p.(state := Some(st.(pageViews := st.pageViews + 1))), PageView(st.pageViews == 0));
      }
    case TracksEvent(name) => if p.state.Some? { EnqueueOk(p, NamedEvent(name)); }
    case Navigates(location) =>
  }

  // ------------------------------------------------------------- the promises

  /**
  From an installed page no sequence of events starts a recording, shows masked text or resumes sending; once off
  nothing more is handed to the tracker; and a tracker that reports no session after the load reports none again.
  */
  lemma {:induction false} OnlyTightens(p: Page, events: seq<Event>)
    requires Inv(p)
    ensures Inv(Run(p, events)) && Tighter(p, Run(p, events))
  {
    if events != [] {
      OnlyTightens(p, events[..|events| - 1]);
      NextOk(Run(p, events[..|events| - 1]), events[|events| - 1]);
    }
  }

  /** Once off the hook refuses every payload, and a recording stopped and loaded finds no session. */
  lemma OffAndStopped(location: Option<string>, events: seq<Event>, more: seq<Event>, queuedPage: Option<string>)
    requires Run(Blank(location), events).state.Some?
    ensures var (p, q) := (Run(Blank(location), events), Run(Run(Blank(location), events), more));
      && q.state.Some? && q.recorders == p.recorders && (p.masked ==> q.masked)
      && (p.state.value.off ==> q.sent == p.sent && BeforeSend(q, queuedPage) == None)
      && (p.state.value.recordingStopped && p.state.value.loaded ==> q.tracker != Live)
  {
    OnlyTightens(Blank(location), events);
    OnlyTightens(Run(Blank(location), events), more);
  }

  /**
  While analytics is on and the tracker is there, what it was handed is exactly the first fifty calls made before
  the load and every call after it, in order, each under its own page where that could be named, and nothing but bare
  paths leaves.
  */
  lemma NothingLostOrRepeated(location: Option<string>, events: seq<Event>)
    requires var p := Run(Blank(location), events);
      p.state.Some? && p.state.value.loaded && !p.state.value.off && p.tracker != Absent
    ensures var p := Run(Blank(location), events);
      && p.sent == Outgoing(First(p.early), p.drainedOn) + Outgoing(p.late, None)
      && forall i :: 0 <= i < |p.sent| && p.sent[i].url.Some? ==> Bare(p.sent[i].url.value)
  {
    OnlyTightens(Blank(location), events);
  }

  /**
  A page that cannot be named is meant not to be sent at all. With the load taken at any point of a run, a call goes
  out under the page it was made on, or not at all where that had no name, if and only if it had one, or it was made
  after the load, or the page of the load has no name either.
  */
  lemma UnderItsOwnPage(location: Option<string>, before: seq<Event>, after: seq<Event>, i: nat)
    requires var p := Run(Blank(location), before); p.state.Some? && !p.state.value.loaded
    requires var q := Run(Next(Run(Blank(location), before), Loads), after);
      q.state.Some? && !q.state.value.off && q.tracker != Absent && i < |q.sent|
    ensures var (p, q) := (Run(Blank(location), before), Run(Next(Run(Blank(location), before), Loads), after));
      var asked := First(q.early) + q.late;
      && |q.sent| == |asked| && q.sent[i].call == asked[i].call
      && (q.sent[i].url == asked[i].page <==>
            asked[i].page.Some? || i >= |First(q.early)| || PageNow(p) == None)
  {
    hide Next, Run, PageNow, First, Pages, Bare;
    OnlyTightens(Blank(location), before);
    var p := Run(Blank(location), before);
    NextOk(p, Loads);
    OnlyTightens(Next(p, Loads), after);
    LoadsHere(p);
  }

  lemma LoadsHere(p: Page)
    requires p.state.Some? && !p.state.value.loaded
    ensures var q := Next(p, Loads); q.state.Some? && q.state.value.loaded && q.drainedOn == PageNow(p)
  {
    DispatchAllIs(Loaded(p), p.state.value.queue);
    hide DispatchAll, Deliveries, PageNow;
  }

  /** It does happen: the first view of a page without a name is reported as a view of the inbox. */
  lemma SentUnderAnotherPage(kept: Option<bool>, draw: real)
    ensures var events := [Apply(Some(Settings(true, None)), kept, draw), Navigates(Some("/inbox")), ScriptRuns, Loads];
      var p := Run(Blank(None), events);
      p.early == [Asked(PageView(true), None)] && p.sent == [Sent(PageView(true), Some("/inbox"))]
  {
    var install := Apply(Some(Settings(true, None)), kept, draw);
    var events := [install, Navigates(Some("/inbox")), ScriptRuns, Loads];
    var a := Asked(PageView(true), None);
    var p0, p1 := Blank(None), Visited(None, Absent);
    FirstView(kept, draw);
    InboxLoads();
    hide AsPattern, ApplySettings, OnTrackerLoad;
    assert events[..1] == [install] && Run(p0, events[..1]) == p1 by { assert [install][..0] == []; }
    assert events[..2][..1] == events[..1] && events[..3][..2] == events[..2];
    assert Run(p0, events[..2]) == Visited(Some("/inbox"), Absent);
    assert Run(p0, events[..3]) == Visited(Some("/inbox"), Live);
  }

  /** Installed on a page without a name, whose view waits in the queue. */
  function Visited(location: Option<string>, tracker: Tracker): Page {
    var a := Asked(PageView(true), None);
    Page(Some(State(false, [a], 1, false, false, false)), tracker, false, 0, location, [], [a], [], [], None)
  }

  lemma FirstView(kept: Option<bool>, draw: real)
    ensures Next(Blank(None), Apply(Some(Settings(true, None)), kept, draw)) == Visited(None, Absent)
  {
    var a := Asked(PageView(true), None);
    var p := Blank(None).(state := Some(State(false, [], 1, false, false, false)));
    assert Enqueue(p, PageView(true)) == Visited(None, Absent) by { assert [] + [a] == [a]; }
    hide Enqueue;
  }

  lemma InboxLoads()
    ensures var p := OnTrackerLoad(Visited(Some("/inbox"), Live));
      p.early == [Asked(PageView(true), None)] && p.sent == [Sent(PageView(true), Some("/inbox"))]
  {
    InboxIsBare();
    hide AsPattern;
    var p, a := Visited(Some("/inbox"), Live), Asked(PageView(true), None);
    LoadIs(p);
    hide OnTrackerLoad;
    assert Outgoing([a], PageNow(p)) == [Sent(PageView(true), Some("/inbox"))];
    assert [] + Outgoing([a], PageNow(p)) == Outgoing([a], PageNow(p));
  }

  lemma InboxIsBare()
    ensures AsPattern("/inbox") == "/inbox"
  {
    var s := "/inbox";
    assert s[1..] == "inbox" && s[2..] == "nbox" && s[3..] == "box" && s[4..] == "ox" && s[5..] == "x" && s[6..] == "";
    assert s[1..][1..] == s[2..] && s[2..][1..] == s[3..] && s[3..][1..] == s[4..] && s[4..][1..] == s[5..];
    assert s[5..][1..] == s[6..];
    assert Cut(s[3..]) == s[3..];
    assert Cut(s) == s;
  }

  // ------------------------------------------------------ what settings bring about

  /** Settings that can start the tracker. */
  predicate Installs(e: Event) { e.Apply? && e.settings.Some? && e.settings.value.scriptPinned }

  /** ... and, on a page not yet installed, a recording: one is asked for, the visit is picked, the script is pinned. */
  predicate Starts(e: Event) {
    Installs(e) && e.settings.value.replay.Some? && e.settings.value.replay.value.recorderPinned && Picks(e)
  }

  /** Settings that still pick this visit. */
  predicate Picks(e: Event) {
    e.Apply? && e.settings.Some? && e.settings.value.replay.Some?
    && ShouldRecord(e.settings.value.replay.value.sampleRate, e.kept, e.draw)
  }

  predicate Withdraws(e: Event) { e.Apply? && e.settings == None }

  predicate Hides(e: Event) { Picks(e) && !e.settings.value.replay.value.showText }

  /** What one event makes of the settings in force. */
  predicate Obeys(p: Page, e: Event, q: Page) {
    && (q.state.Some? <==> p.state.Some? || Installs(e))
    && (p.state == None && q.state.Some? ==>
          && q.state.value.recording == Starts(e) && !q.state.value.off && !q.state.value.recordingStopped
          && q.recorders == p.recorders + (if Starts(e) then 1 else 0)
          && (q.masked <==> p.masked || (Starts(e) && Hides(e))))
    && (p.state == None && q.state == None ==> q.masked == p.masked && q.recorders == p.recorders)
    && (p.state.Some? ==> var (st, st') := (p.state.value, q.state.value);
          && (st'.off <==> st.off || Withdraws(e))
          && (st'.recordingStopped <==> st.recordingStopped || (st.recording && e.Apply? && !Picks(e)))
          && (q.masked <==> p.masked || (st.recording && !st.off && Hides(e))))
  }

  lemma ObeysInstall(p: Page, e: Event)
    requires p.state == None && e.Apply?
    ensures Obeys(p, e, Next(p, e))
  {
    EnqueueKeeps(p.(state := Some(State(false, [], 1, false, false, false))), PageView(true));
    hide ShouldRecord, Enqueue;
  }

  lemma ObeysApply(p: Page, e: Event)
    requires p.state.Some? && e.Apply?
    requires p.state.value.off && p.state.value.recording ==> p.state.value.recordingStopped
    ensures Obeys(p, e, Next(p, e))
  {
    hide ShouldRecord, InstallAnalytics;
  }

  /** Everything else leaves the settings alone. */
  lemma ObeysOther(p: Page, e: Event)
    requires Inv(p) && !e.Apply?
    ensures Obeys(p, e, Next(p, e))
  {
    match e
    case TracksPageView =>
      if p.state.Some? {
        var st := p.state.value;
        EnqueueKeeps(p.(state := Some(st.(pageViews := st.pageViews + 1))), PageView(st.pageViews == 0));
      }
      hide Enqueue, Inv;
    case TracksEvent(name) =>
      if p.state.Some? { EnqueueKeeps(p, NamedEvent(name)); }
      hide Enqueue, Inv;
    case Loads =>
      if p.state.Some? && !p.state.value.loaded { LoadIs(p); }
      hide OnTrackerLoad, Inv, Outgoing;
    case _ => hide Inv;
  }

  lemma SettingsStep(p: Page, e: Event)
    requires Inv(p)
    ensures Obeys(p, e, Next(p, e))
  {
    hide Next, Obeys;
    if !e.Apply? { ObeysOther(p, e); } else if p.state == None { ObeysInstall(p, e); } else { ObeysApply(p, e); }
  }

  /**
  Withdrawing the settings turns analytics off, and nothing else does. A recording is stopped exactly when some settings
  no longer pick this visit, its text hidden exactly when some settings that do ask for it before the withdrawal.
  */
  lemma {:induction false} SettingsExactly(p: Page, events: seq<Event>)
    requires Inv(p) && p.state.Some?
    ensures var (q, st) := (Run(p, events), p.state.value);
      && q.state.Some?
      && (q.state.value.off <==> st.off || AnyWithdraws(events))
      && (q.state.value.recordingStopped <==> st.recordingStopped || (st.recording && AnyPasses(events)))
      && (q.masked <==> p.masked || (st.recording && !st.off && AsksToHide(events)))
  {
    hide Next, Inv, Picks, Hides, Withdraws, AnyWithdraws, AnyPasses;
    AnyMore(events);
    if events != [] {
      var n := |events| - 1;
      SettingsExactly(p, events[..n]);
      OnlyTightens(p, events[..n]);
      SettingsStep(Run(p, events[..n]), events[n]);
    }
  }

  /** Some settings are withdrawn. */
  predicate AnyWithdraws(events: seq<Event>) { exists e <- events :: Withdraws(e) }

  /** Some settings do not pick this visit. */
  predicate AnyPasses(events: seq<Event>) { exists e <- events :: e.Apply? && !Picks(e) }

  lemma AnyMore(events: seq<Event>)
    ensures events == [] ==> !AnyWithdraws(events) && !AnyPasses(events)
    ensures events != [] ==> var (before, last) := (events[..|events| - 1], events[|events| - 1]);
      && (AnyWithdraws(events) <==> AnyWithdraws(before) || Withdraws(last))
      && (AnyPasses(events) <==> AnyPasses(before) || (last.Apply? && !Picks(last)))
  {
    hide Picks, Withdraws;
    if events != [] { assert events == events[..|events| - 1] + [events[|events| - 1]]; }
  }

  /** Some settings ask for hidden text, with none withdrawn before them. */
  predicate AsksToHide(events: seq<Event>) {
    events != [] &&
    var (before, last) := (events[..|events| - 1], events[|events| - 1]);
    AsksToHide(before) || (Hides(last) && !AnyWithdraws(before))
  }

  /** A page starts with the first settings that can start it, and records exactly when those ask for it. */
  lemma {:induction false} StartsExactly(location: Option<string>, events: seq<Event>)
    ensures var p := Run(Blank(location), events);
      && Inv(p) && (p.state.Some? <==> exists e <- events :: Installs(e))
      && (p.state == None ==> p.recorders == 0 && !p.masked && !FirstStarts(events))
      && (p.state.Some? ==>
            && p.state.value.recording == FirstStarts(events)
            && p.recorders == (if FirstStarts(events) then 1 else 0))
  {
    assert forall e :: Starts(e) ==> Installs(e);
    hide Next, Inv, Starts, Installs;
    OnlyTightens(Blank(location), events);
    if events != [] {
      var n := |events| - 1;
      StartsExactly(location, events[..n]);
      var p := Run(Blank(location), events[..n]);
      SettingsStep(p, events[n]);
      NextOk(p, events[n]);
      assert events == events[..n] + [events[n]];
    }
  }

  /** The first settings that can start the page ask for a recording. */
  predicate FirstStarts(events: seq<Event>) {
    events != [] &&
    var (before, last) := (events[..|events| - 1], events[|events| - 1]);
    FirstStarts(before) || (Starts(last) && forall e <- before :: !Installs(e))
  }

  /** A recording asked for again while one runs, stopped or not, can only hide the text. */
  lemma StartsOnce(p: Page, r: Replay)
    requires p.state.Some? && p.state.value.recording
    ensures StartRecording(p, r) == p.(masked := p.masked || !r.showText)
  {}

  /** A rate of zero never picks and one of one always does, whatever was decided before; between them that decides. */
  lemma PickRule(rate: real, kept: Option<bool>, draw: real)
    ensures rate <= 0.0 ==> !ShouldRecord(rate, kept, draw)
    ensures rate >= 1.0 ==> ShouldRecord(rate, kept, draw)
    ensures 0.0 < rate < 1.0 && kept.Some? ==> ShouldRecord(rate, kept, draw) == kept.value
    ensures 0.0 < rate < 1.0 && kept == None ==> ShouldRecord(rate, kept, draw) == (draw < rate)
  {}

  // ---------------------------------------------------------- what is asked for

  datatype Phase = Before | On | Off

  /** What the events alone say: where the page is, and each call made while analytics is on, under its page. */
  datatype Told = Told(phase: Phase, location: Option<string>, asked: seq<Asked>)

  function Hear(t: Told, e: Event): Told {
    var page := match t.location case None => None case Some(raw) => Some(AsPattern(raw));
    match e
    case Apply(_, _, _) =>
      if t.phase == Before && Installs(e) then t.(phase := On, asked := t.asked + [Asked(PageView(true), page)])
      else if t.phase == On && Withdraws(e) then t.(phase := Off)
      else t
    case TracksPageView => if t.phase == On then t.(asked := t.asked + [Asked(PageView(false), page)]) else t
    case TracksEvent(name) => if t.phase == On then t.(asked := t.asked + [Asked(NamedEvent(name), page)]) else t
    case Navigates(to) => t.(location := to)
    case _ => t
  }

  function Tell(location: Option<string>, events: seq<Event>): Told {
    if events == [] then Told(Before, location, [])
    else Hear(Tell(location, events[..|events| - 1]), events[|events| - 1])
  }

  predicate ToldRight(p: Page, t: Told) {
    && p.location == t.location && p.early + p.late == t.asked
    && match p.state
       case None => t.phase == Before
       case Some(st) => st.pageViews > 0 && t.phase == if st.off then Off else On
  }

  lemma EnqueueTold(p: Page, call: Call)
    requires Inv(p) && p.state.Some?
    ensures var q := Enqueue(p, call);
      q.early + q.late == p.early + p.late + if p.state.value.off then [] else [Asked(call, PageNow(p))]
  {
    hide Outgoing, Handed, Pages, First, AsPattern;
    var a := Asked(call, PageNow(p));
    assert p.early + (p.late + [a]) == p.early + p.late + [a];
    assert p.late == [] ==> p.early + [a] + p.late == p.early + p.late + [a];
    assert p.early + p.late + [] == p.early + p.late;
  }

  lemma ToldInstall(p: Page, t: Told, e: Event)
    requires Inv(p) && ToldRight(p, t) && e.Apply? && p.state == None
    ensures ToldRight(Next(p, e), Hear(t, e))
  {
    FreshOk(p);
    hide Inv, AsPattern, ShouldRecord, Enqueue;
    var q := p.(state := Some(State(false, [], 1, false, false, false)));
    EnqueueKeeps(q, PageView(true));
    EnqueueTold(q, PageView(true));
  }

  /** Later settings ask for nothing. */
  lemma ToldApply(p: Page, t: Told, e: Event)
    requires ToldRight(p, t) && e.Apply? && p.state.Some?
    ensures ToldRight(Next(p, e), Hear(t, e))
  {
    hide AsPattern, ShouldRecord, InstallAnalytics;
  }

  lemma ToldView(p: Page, t: Told)
    requires Inv(p) && ToldRight(p, t)
    ensures ToldRight(Next(p, TracksPageView), Hear(t, TracksPageView))
  {
    if p.state.Some? {
      var st := p.state.value;
      var q := p.(state := Some(st.(pageViews := st.pageViews + 1)));
      assert Inv(q);
      hide Inv, AsPattern, Enqueue;
      EnqueueKeeps(q, PageView(false));
      EnqueueTold(q, PageView(false));
    }
  }

  lemma ToldStep(p: Page, t: Told, e: Event)
    requires Inv(p) && ToldRight(p, t)
    ensures ToldRight(Next(p, e), Hear(t, e))
  {
    match e
    case Apply(_, _, _) => if p.state == None { ToldInstall(p, t, e); } else { ToldApply(p, t, e); }
    case TracksPageView => ToldView(p, t);
    case TracksEvent(name) =>
      if p.state.Some? {
        EnqueueKeeps(p, NamedEvent(name));
        EnqueueTold(p, NamedEvent(name));
        hide Inv, AsPattern, Enqueue;
      }
    case Loads =>
      if p.state.Some? && !p.state.value.loaded {
        LoadIs(p);
        hide OnTrackerLoad, Inv, Outgoing;
      }
    case _ => hide Inv;
  }

  /**
  The calls of which the first fifty early ones and every late one go out are exactly those the page made while
  analytics was on: the view the visit starts on, each further view and each event, under the page they were made on.
  */
  lemma {:induction false} AskedExactly(location: Option<string>, events: seq<Event>)
    ensures ToldRight(Run(Blank(location), events), Tell(location, events))
  {
    if events != [] {
      var n := |events| - 1;
      AskedExactly(location, events[..n]);
      OnlyTightens(Blank(location), events[..n]);
      hide Next, Inv, ToldRight;
      ToldStep(Run(Blank(location), events[..n]), Tell(location, events[..n]), events[n]);
    }
  }

  lemma {:induction false} CutAt(path: string, rest: string)
    requires forall c <- path :: c != '?' && c != '#'
    requires rest == "" || rest[0] == '?' || rest[0] == '#'
    ensures Cut(path + rest) == path
  {
    if path == "" {
      assert path + rest == rest;
    } else {
      assert (path + rest)[1..] == path[1..] + rest && path == [path[0]] + path[1..];
      assert path[0] in path && forall c <- path[1..] :: c in path;
      CutAt(path[1..], rest);
    }
  }

  /** The pattern of a page is its path: query and fragment cut, a leading slash added where there is none. */
  lemma PatternIs(path: string, rest: string)
    requires forall c <- path :: c != '?' && c != '#'
    requires rest == "" || rest[0] == '?' || rest[0] == '#'
    ensures AsPattern(path + rest) == if path != "" && path[0] == '/' then path else "/" + path
  {
    CutAt(path, rest);
  }
}

/** The loader itself: module state changed in place by calls, load events and settings. */
module AnalyticsModule {
  import opened Prelude
  import opened Analytics

  class Loader {
    var installed: bool
    var loaded: bool
    var queue: seq<Asked>
    var pageViews: nat
    var recording: bool
    var recordingStopped: bool
    var off: bool
    var tracker: Tracker
    var masked: bool
    var recorders: nat
    var location: Option<string>
    ghost var sent: seq<Sent>
    ghost var early: seq<Asked>
    ghost var late: seq<Asked>
    ghost var drained: seq<Asked>
    ghost var drainedOn: Option<string>

    ghost function View(): Page
      reads this
    {
      Page(if installed then Some(State(loaded, queue, pageViews, recording, recordingStopped, off)) else None,
           tracker, masked, recorders, location, sent, early, late, drained, drainedOn)
    }

    constructor (location: Option<string>)
      ensures View() == Blank(location)
    {
      installed, loaded, queue, pageViews := false, false, [], 0;
      recording, recordingStopped, off := false, false, false;
      tracker, masked, recorders := Absent, false, 0;
      this.location := location;
      sent, early, late, drained, drainedOn := [], [], [], [], None;
    }

    method DispatchCall(a: Asked)
      modifies this`sent
      ensures View() == Dispatch(old(View()), a)
    {
      if tracker == Absent { return; }
      sent := sent + [Sent(a.call, BeforeSend(View(), a.page))];
    }

    method EnqueueCall(call: Call)
      modifies this
      ensures View() == Enqueue(old(View()), call)
    {
      if !installed || off { return; }
      var page := match location case None => None case Some(raw) => Some(AsPattern(raw));
      if loaded {
        late := late + [Asked(call, page)];
        DispatchCall(Asked(call, None));
        return;
      }
      early := early + [Asked(call, page)];
      if |queue| >= MAX_QUEUED_CALLS { return; }
      queue := queue + [Asked(call, page)];
    }

    method PageViewed()
      modifies this
      ensures View() == TrackPageView(old(View()))
    {
      if !installed { return; }
      var first := pageViews == 0;
      pageViews := pageViews + 1;
      EnqueueCall(PageView(first));
    }

    method Silence()
      modifies this
      ensures View() == SilenceRecorder(old(View()))
    {
      if tracker != Absent { tracker := Silent; }
    }

    /** The load event: the early calls are spliced out and sent one by one. */
    method TrackerLoaded()
      modifies this
      ensures View() == OnTrackerLoad(old(View()))
    {
      if !installed { return; }
      hide DispatchAll, Loaded;
      var calls := Splice();
      Drain(calls);
    }

    method Splice() returns (calls: seq<Asked>)
      requires installed
      modifies this
      ensures View() == Loaded(old(View())) && calls == old(queue)
    {
      hide PageNow;
      drained, drainedOn := queue, PageNow(View());
      loaded := true;
      calls, queue := queue, [];
      if recordingStopped { Silence(); }
    }

    method Drain(calls: seq<Asked>)
      modifies this`sent
      ensures View() == DispatchAll(old(View()), calls)
    {
      ghost var start := View();
      var i := 0;
      while i < |calls|
        invariant 0 <= i <= |calls|
        invariant View() == DispatchAll(start, calls[..i])
      {
        assert calls[..i + 1][..i] == calls[..i];
        DispatchCall(calls[i]);
        i := i + 1;
      }
      assert calls[..i] == calls;
    }

    method Install(s: Settings)
      modifies this
      ensures View() == InstallAnalytics(old(View()), s)
    {
      if installed || !s.scriptPinned { return; }
      installed, loaded, queue, pageViews := true, false, [], 0;
      recording, recordingStopped, off := false, false, false;
      PageViewed();
    }

    method Start(r: Replay)
      modifies this
      ensures View() == StartRecording(old(View()), r)
    {
      if !installed { return; }
      if recording {
        if !r.showText { masked := true; }
        return;
      }
      if !r.recorderPinned { return; }
      recording := true;
      if !r.showText { masked := true; }
      recorders := recorders + 1;
    }

    method Stop()
      modifies this
      ensures View() == StopRecording(old(View()))
    {
      if !installed || !recording { return; }
      recordingStopped := true;
      Silence();
    }

    method ApplyAnalyticsSettings(settings: Option<Settings>, kept: Option<bool>, draw: real)
      modifies this
      ensures View() == ApplySettings(old(View()), settings, kept, draw)
    {
      if !installed {
        if settings == None { return; }
        Install(settings.value);
        var replay := settings.value.replay;
        if replay.Some? && ShouldRecord(replay.value.sampleRate, kept, draw) { Start(replay.value); }
        return;
      }
      if off { return; }
      if settings == None {
        off := true;
        queue := [];
        Stop();
        return;
      }
      if !recording { return; }
      var replay := settings.value.replay;
      if replay == None || !ShouldRecord(replay.value.sampleRate, kept, draw) {
        Stop();
        return;
      }
      if !replay.value.showText { masked := true; }
    }

    method Happens(e: Event)
      modifies this
      ensures View() == Next(old(View()), e)
    {
      match e
      case Apply(settings, kept, draw) => ApplyAnalyticsSettings(settings, kept, draw);
      case ScriptRuns => if installed && !loaded && tracker == Absent { tracker := Live; }
      case Loads => if installed && !loaded { TrackerLoaded(); }
      case TracksPageView => PageViewed();
      case TracksEvent(name) => if installed { EnqueueCall(NamedEvent(name)); }
      case Navigates(to) => location := to;
    }
  }

  /**
  Any events, then more, played on the module itself: it ends where the run ends, and where it was installed by then
  the rest of the events started no recording, showed no masked text and sent nothing once off.
  */
  method Play(location: Option<string>, events: seq<Event>, more: seq<Event>) returns (page: Loader)
    ensures fresh(page) && page.View() == Run(Run(Blank(location), events), more)
    ensures Tighter(Run(Blank(location), events), page.View())
  {
    page := new Loader(location);
    for i := 0 to |events|
      invariant fresh(page) && page.View() == Run(Blank(location), events[..i])
    {
      page.Happens(events[i]);
      assert events[..i + 1][..i] == events[..i];
    }
    assert events[..|events|] == events;
    ghost var p := Run(Blank(location), events);
    for i := 0 to |more|
      invariant fresh(page) && page.View() == Run(p, more[..i])
    {
      page.Happens(more[i]);
      assert more[..i + 1][..i] == more[..i];
    }
    assert more[..|more|] == more;
    OnlyTightens(Blank(location), events);
    OnlyTightens(p, more);
  }
}
