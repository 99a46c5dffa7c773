/**
The policy-file watcher: a directory watch, a debounce timer, a re-arm after an error, and the policy slice of the
running configuration. The file is whatever it validly holds, or nothing; any pending timer may fire at any moment.
*/
module Policy {
  import opened Prelude

  type Pinned = string

  /** The process-wide configuration: the policy slice, and everything else. */
  datatype Config = Config(policy: Option<Pinned>, rest: string)

  datatype TimerKind = Debounce | Rewatch

  /** The variables `watchPolicyFile` closes over; handles and timers are numbers never used twice. */
  datatype Watch = Watch(watcher: Option<nat>, timer: Option<nat>, rewatch: Option<nat>, closed: bool)

  /**
  `live` are the open watch handles and `pending` the timers not yet fired. The rest is history: a clock of events,
  when the file last changed, a signal last arrived and a reload last ran, and what each reload read.
  */
  datatype World = World(
    watch: Watch, config: Config, file: Option<Pinned>, live: set<nat>, pending: map<nat, TimerKind>, next: nat,
    clock: nat, changedAt: nat, signalledAt: nat, reloadedAt: nat, seen: seq<Option<Pinned>>)

  // ------------------------------------------------------------ the functions

  /** `reload`: a read that failed or did not validate keeps the last good value. */
  function Reload(w: World): World {
    w.(config := if w.file == None then w.config else w.config.(policy := w.file),
       reloadedAt := w.clock, seen := w.seen + [w.file])
  }

  /** `arm`, which leaves the watch down when the directory cannot be watched. */
  function Arm(w: World, watchable: bool): World {
    if !watchable then w
    else w.(live := w.live + {w.next}, watch := w.watch.(watcher := Some(w.next)), next := w.next + 1)
  }

  function SetTimer(w: World, kind: TimerKind): World { w.(pending := w.pending[w.next := kind], next := w.next + 1) }

  function Keys(id: Option<nat>): set<nat> { if id == None then {} else {id.value} }

  /** The watch's listener. */
  function OnEvent(w: World): World {
    var w' := SetTimer(w.(pending := w.pending - Keys(w.watch.timer), signalledAt := w.clock), Debounce);
    w'.(watch := w.watch.(timer := Some(w.next)))
  }

  function OnError(w: World, handle: nat): World {
    var w' := w.(live := w.live - {handle} - Keys(w.watch.watcher), watch := w.watch.(watcher := None),
                 signalledAt := w.clock);
    if w.watch.closed || w.watch.rewatch.Some? then w'
    else SetTimer(w', Rewatch).(watch := w'.watch.(rewatch := Some(w.next)))
  }

  function OnTimer(w: World, id: nat, watchable: bool): World
    requires id in w.pending
  {
    var w' := w.(pending := w.pending - {id});
    match w.pending[id]
    case Debounce => Reload(w')
    case Rewatch =>
      var w'' := w'.(watch := w.watch.(rewatch := None));
      if w.watch.closed then w'' else Reload(Arm(w'', watchable))
  }

  function Close(w: World): World {
    w.(pending := w.pending - Keys(w.watch.timer) - Keys(w.watch.rewatch), live := w.live - Keys(w.watch.watcher),
       watch := w.watch.(closed := true, rewatch := None, watcher := None))
  }

  datatype Event =
    | FileChanges(file: Option<Pinned>)
    | Delivers(handle: nat)
    | Errors(handle: nat)
    | Fires(timer: nat, watchable: bool)
    | Closes

  /** One event. Only an open handle delivers; any handle may report an error, even one already closed. */
  function Next(w0: World, e: Event): World {
    var w := w0.(clock := w0.clock + 1);
    match e
    case FileChanges(file) => w.(file := file, changedAt := w.clock)
    case Delivers(h) => if h in w.live then OnEvent(w) else w
    case Errors(h) => OnError(w, h)
    case Fires(id, watchable) => if id in w.pending then OnTimer(w, id, watchable) else w
    case Closes => Close(w)
  }

  function Start(config: Config, file: Option<Pinned>, watchable: bool): World {
    Arm(World(Watch(None, None, None, false), config, file, {}, map[], 0, 1, 1, 0, 0, []), watchable)
  }

  function Run(w: World, events: seq<Event>): World {
    if events == [] then w else Next(Run(w, events[..|events| - 1]), events[|events| - 1])
  }

  // ------------------------------------------------------------ the invariant

  /** The last read that gave a policy, or what was there before. */
  function LastGood(start: Option<Pinned>, seen: seq<Option<Pinned>>): Option<Pinned> {
    if seen == [] then start else
      var last := seen[|seen| - 1];
      if last.Some? then last else LastGood(start, seen[..|seen| - 1])
  }

  predicate TimersOk(w: World) {
    && (forall id <- w.pending :: id < w.next
          && (if w.pending[id] == Debounce then w.watch.timer == Some(id) else w.watch.rewatch == Some(id)))
    && (w.watch.timer.Some? ==>
          w.watch.timer.value < w.next
          && (w.watch.timer.value in w.pending ==> w.pending[w.watch.timer.value] == Debounce))
    && (w.watch.rewatch.Some? ==> w.watch.rewatch.value in w.pending && w.pending[w.watch.rewatch.value] == Rewatch)
    && (w.watch.closed ==> w.pending == map[] && w.watch.rewatch == None)
  }

  predicate HandlesOk(w: World) {
    && w.live == Keys(w.watch.watcher)
    && (w.watch.rewatch.Some? || w.watch.closed ==> w.watch.watcher == None)
  }

  predicate ReadsOk(w: World) {
    && w.clock >= w.reloadedAt && w.clock >= w.signalledAt && w.clock >= w.changedAt
    && (!w.watch.closed && w.pending == map[] ==> w.signalledAt == 0 || w.signalledAt < w.reloadedAt)
    && (w.changedAt < w.reloadedAt ==> w.seen != [] && w.seen[|w.seen| - 1] == w.file)
  }

  predicate Inv(w: World, start: Config) {
    TimersOk(w) && HandlesOk(w) && ReadsOk(w) && w.config == Config(LastGood(start.policy, w.seen), start.rest)
  }

  lemma ReloadOk(w: World, start: Config)
    requires TimersOk(w) && HandlesOk(w) && w.config == Config(LastGood(start.policy, w.seen), start.rest)
    requires w.clock > w.signalledAt && w.clock > w.changedAt
    ensures Inv(Reload(w), start)
  {
    assert (w.seen + [w.file])[..|w.seen|] == w.seen;
  }

  lemma EventOk(w: World, start: Config)
    requires TimersOk(w) && HandlesOk(w) && w.config == Config(LastGood(start.policy, w.seen), start.rest)
    requires w.clock >= w.reloadedAt && w.clock >= w.changedAt && w.live != {}
    requires w.changedAt < w.reloadedAt ==> w.seen != [] && w.seen[|w.seen| - 1] == w.file
    ensures Inv(OnEvent(w), start)
  {
    hide LastGood;
    assert w.next in OnEvent(w).pending;
  }

  lemma CloseOk(w: World, start: Config)
    requires TimersOk(w) && HandlesOk(w) && w.config == Config(LastGood(start.policy, w.seen), start.rest)
    requires w.clock >= w.reloadedAt && w.clock >= w.changedAt && w.clock >= w.signalledAt
    requires w.changedAt < w.reloadedAt ==> w.seen != [] && w.seen[|w.seen| - 1] == w.file
    ensures Inv(Close(w), start)
  {
    hide LastGood;
  }

  lemma ErrorOk(w: World, h: nat, start: Config)
    requires TimersOk(w) && HandlesOk(w) && w.config == Config(LastGood(start.policy, w.seen), start.rest)
    requires w.clock >= w.reloadedAt && w.clock >= w.changedAt
    requires w.changedAt < w.reloadedAt ==> w.seen != [] && w.seen[|w.seen| - 1] == w.file
    ensures Inv(OnError(w, h), start)
  {
    hide LastGood;
    if !w.watch.closed {
      var id := if w.watch.rewatch.Some? then w.watch.rewatch.value else w.next;
      assert id in OnError(w, h).pending;
    }
  }

  lemma TimerOk(w: World, id: nat, watchable: bool, start: Config)
    requires TimersOk(w) && HandlesOk(w) && w.config == Config(LastGood(start.policy, w.seen), start.rest)
    requires w.clock > w.signalledAt && w.clock > w.changedAt && id in w.pending
    ensures Inv(OnTimer(w, id, watchable), start)
  {
    hide LastGood;
    var w2 := w.(pending := w.pending - {id});
    if w.pending[id] == Debounce {
      ReloadOk(w2, start);
    } else {
      ReloadOk(Arm(w2.(watch := w.watch.(rewatch := None)), watchable), start);
    }
  }

  /** What every event keeps. */
  lemma NextOk(w: World, e: Event, start: Config)
    requires Inv(w, start)
    ensures Inv(Next(w, e), start)
  {
    hide LastGood, OnEvent, OnError, OnTimer, Close;
    var w1 := w.(clock := w.clock + 1);
    match e
    case FileChanges(file) =>
    case Delivers(h) => if h in w.live { EventOk(w1, start); }
    case Errors(h) => ErrorOk(w1, h, start);
    case Fires(id, watchable) =>
      if id in w.pending { TimerOk(w1, id, watchable, start); }
    case Closes => CloseOk(w1, start);
  }

  lemma {:induction false} RunOk(config: Config, file: Option<Pinned>, watchable: bool, events: seq<Event>)
    ensures Inv(Run(Start(config, file, watchable), events), config)
  {
    if events != [] {
      RunOk(config, file, watchable, events[..|events| - 1]);
      NextOk(Run(Start(config, file, watchable), events[..|events| - 1]), events[|events| - 1], config);
    }
  }

  // ------------------------------------------------------------- the promises

  /**
  In every run: the policy in force is the last one a reload validly read, or the startup value, and nothing else
  in the configuration moves; at most one handle is open; with the watch open and no timer pending, the last reload
  came after the last event or error, so a file change announced since shows.
  */
  lemma WatcherSafety(config: Config, file: Option<Pinned>, watchable: bool, events: seq<Event>)
    ensures var w := Run(Start(config, file, watchable), events);
      && w.config == Config(LastGood(config.policy, w.seen), config.rest) && |w.live| <= 1
      && (!w.watch.closed && w.pending == map[] && w.signalledAt > 0 ==> w.signalledAt < w.reloadedAt)
      && (!w.watch.closed && w.pending == map[] && w.changedAt < w.signalledAt && w.file.Some? ==>
            w.config.policy == w.file)
  {
    RunOk(config, file, watchable, events);
    var w := Run(Start(config, file, watchable), events);
    assert w.live == Keys(w.watch.watcher);
  }

  /** The policy is the startup value or one some reload read. */
  lemma {:induction false} GoodWasRead(start: Option<Pinned>, seen: seq<Option<Pinned>>)
    ensures var p := LastGood(start, seen); p == start || (p.Some? && p in seen)
  {
    if seen != [] { GoodWasRead(start, seen[..|seen| - 1]); }
  }

  /** Open, but with no handle and no timer: nothing is left to notice a change. */
  predicate Deaf(w: World) { !w.watch.closed && w.live == {} && w.pending == map[] }

  /**
  An open watcher still reacts to a change of the file exactly when it is not deaf, errors aside: a deaf one
  keeps its policy for good, and any other can be brought to read the file as it stands.
  */
  lemma {:induction false} DeafForGood(w: World, events: seq<Event>)
    requires Deaf(w) && forall i :: 0 <= i < |events| ==> !events[i].Errors? && !events[i].Closes?
    ensures Deaf(Run(w, events)) && Run(w, events).config == w.config
  {
    if events != [] { DeafForGood(w, events[..|events| - 1]); }
  }

  lemma HearingReacts(w: World, start: Config, file: Pinned) returns (events: seq<Event>)
    requires Inv(w, start) && !w.watch.closed && !Deaf(w)
    ensures forall i :: 0 <= i < |events| ==> !events[i].Errors? && !events[i].Closes?
    ensures Run(w, events).config.policy == Some(file)
  {
    var changed := Next(w, FileChanges(Some(file)));
    if w.pending != map[] {
      var id :| id in w.pending;
      events := [FileChanges(Some(file)), Fires(id, true)];
      assert events[..1] == [FileChanges(Some(file))];
      assert Run(w, events[..1]) == changed;
    } else {
      var h :| h in w.live;
      events := [FileChanges(Some(file)), Delivers(h), Fires(w.next, true)];
      assert events[..2][..1] == [FileChanges(Some(file))] && events[..2][1] == Delivers(h);
      assert Run(w, events[..2][..1]) == changed;
      assert w.next in Run(w, events[..2]).pending;
    }
  }

  /** The event lets a re-arm run that cannot watch the directory. */
  predicate ArmFails(w: World, e: Event) {
    e.Fires? && !e.watchable && e.timer in w.pending && w.pending[e.timer] == Rewatch
  }

  /** The last attempt to watch failed, with no error and no close since; each event is judged in its own state. */
  predicate ArmFailed(config: Config, file: Option<Pinned>, watchable: bool, events: seq<Event>) {
    if events == [] then !watchable else
      var before, last := events[..|events| - 1], events[|events| - 1];
      if last.Errors? || last.Closes? then false
      else ArmFails(Run(Start(config, file, watchable), before), last) || ArmFailed(config, file, watchable, before)
  }

  /** Open, with neither a watch nor a re-arm to come. */
  predicate Down(w: World) { !w.watch.closed && w.watch.watcher == None && w.watch.rewatch == None }

  lemma DownStep(w: World, e: Event, start: Config)
    requires Inv(w, start)
    ensures Down(Next(w, e)) <==> ArmFails(w, e) || (Down(w) && !e.Errors? && !e.Closes?)
  {
    hide LastGood;
  }

  /**
  Which runs stop noticing changes: the watch is down exactly when the last attempt to watch failed with no error and
  no close since, and it is deaf as soon as no debounce is pending either. If no attempt fails it never is.
  */
  lemma {:induction false} DeafExactly(config: Config, file: Option<Pinned>, watchable: bool, events: seq<Event>)
    ensures var w := Run(Start(config, file, watchable), events);
      && (Down(w) <==> ArmFailed(config, file, watchable, events))
      && (Deaf(w) <==> ArmFailed(config, file, watchable, events) && w.pending == map[])
  {
    var w := Run(Start(config, file, watchable), events);
    if events != [] {
      var before, last := events[..|events| - 1], events[|events| - 1];
      DeafExactly(config, file, watchable, before);
      RunOk(config, file, watchable, before);
      DownStep(Run(Start(config, file, watchable), before), last, config);
    }
    RunOk(config, file, watchable, events);
    DeafIsDown(w, config);
    hide Next, Inv;
  }

  lemma DeafIsDown(w: World, start: Config)
    requires Inv(w, start)
    ensures Deaf(w) <==> Down(w) && w.pending == map[]
  {
    hide LastGood;
  }

  lemma {:induction false} NeverFailsNeverDeaf(config: Config, file: Option<Pinned>, events: seq<Event>)
    requires forall i :: 0 <= i < |events| && events[i].Fires? ==> events[i].watchable
    ensures !ArmFailed(config, file, true, events) && !Deaf(Run(Start(config, file, true), events))
  {
    if events != [] { NeverFailsNeverDeaf(config, file, events[..|events| - 1]); }
    DeafExactly(config, file, true, events);
    hide Deaf, Next;
  }

  /** A watcher does go deaf: an error, then a re-arm that finds the directory gone. */
  lemma RearmCanFail(config: Config, file: Option<Pinned>)
    ensures Deaf(Run(Start(config, file, true), [Errors(0), Fires(1, false)]))
  {
    var w, events := Start(config, file, true), [Errors(0), Fires(1, false)];
    assert events[..1] == [Errors(0)];
    assert Run(w, events[..1]).pending == map[1 := Rewatch];
  }

  /**
  Where the directory is not there at startup it is deaf at once, so a policy file a deployment puts there later is
  never read, whatever else happens to the file.
  */
  lemma StartsDeaf(config: Config, file: Option<Pinned>, events: seq<Event>)
    requires forall i :: 0 <= i < |events| ==> !events[i].Errors? && !events[i].Closes?
    ensures Run(Start(config, file, false), events).config == config
  {
    DeafForGood(Start(config, file, false), events);
  }

  /** After close nothing changes the configuration, opens a handle or sets a timer. */
  lemma {:induction false} StaysClosed(w: World, events: seq<Event>, start: Config)
    requires Inv(w, start) && w.watch.closed
    ensures var w' := Run(w, events);
      Inv(w', start) && w'.watch.closed && w'.config == w.config && w'.live == {} && w'.pending == map[]
  {
    if events != [] {
      StaysClosed(w, events[..|events| - 1], start);
      NextOk(Run(w, events[..|events| - 1]), events[|events| - 1], start);
    }
  }

  /** The watch is closed exactly when it was told to. */
  lemma {:induction false} ClosedExactly(config: Config, file: Option<Pinned>, watchable: bool, events: seq<Event>)
    ensures Run(Start(config, file, watchable), events).watch.closed <==> Closes in events
  {
    if events != [] {
      var n := |events| - 1;
      ClosedExactly(config, file, watchable, events[..n]);
      ClosesStep(Run(Start(config, file, watchable), events[..n]), events[n]);
      hide Next;
      assert events == events[..n] + [events[n]];
    }
  }

  lemma ClosesStep(w: World, e: Event)
    ensures Next(w, e).watch.closed <==> w.watch.closed || e.Closes?
  {}

  /**
  From the moment it is told to close, whatever was pending and whatever follows, the policy is the one then in force
  and no handle or timer is left.
  */
  lemma ClosedForGood(config: Config, file: Option<Pinned>, watchable: bool, before: seq<Event>, after: seq<Event>)
    ensures var w := Run(Start(config, file, watchable), before);
      var w' := Run(Next(w, Closes), after);
      w'.watch.closed && w'.config == w.config && w'.live == {} && w'.pending == map[]
  {
    RunOk(config, file, watchable, before);
    var w := Run(Start(config, file, watchable), before);
    NextOk(w, Closes, config);
    assert Next(w, Closes).watch.closed && Next(w, Closes).config == w.config;
    hide Next, Inv;
    StaysClosed(Next(w, Closes), after, config);
  }

  // ------------------------------------------------------------ what each event does

  /** The timers of one kind that are pending. */
  function Pending(w: World, kind: TimerKind): set<nat> { set id <- w.pending | w.pending[id] == kind }

  /** The file was read, and nothing else about it. */
  predicate ReadsFile(w: World, w': World) { w'.seen == w.seen + [w.file] && w'.reloadedAt == w'.clock }

  predicate ReadsNothing(w: World, w': World) { w'.seen == w.seen && w'.reloadedAt == w.reloadedAt }

  /**
  What each event does to an open watch. A change delivered starts the debounce afresh, an error takes the handle down
  and has one re-arm pending, a debounce that runs out reads the file, a re-arm watches again if it can and reads the
  file in any case, and a change of the file alone does nothing.
  */
  lemma EachEvent(w: World, e: Event, start: Config)
    requires Inv(w, start) && !w.watch.closed
    ensures var w' := Next(w, e);
      match e
      case FileChanges(file) => w' == w.(clock := w'.clock, file := file, changedAt := w'.clock)
      case Delivers(h) =>
        && ReadsNothing(w, w') && w'.live == w.live && Pending(w', Rewatch) == Pending(w, Rewatch)
        && if h in w.live then w'.signalledAt == w'.clock && Pending(w', Debounce) == {w.next}
           else w'.signalledAt == w.signalledAt && w'.pending == w.pending
      case Errors(h) =>
        && ReadsNothing(w, w') && w'.live == {} && w'.signalledAt == w'.clock
        && Pending(w', Debounce) == Pending(w, Debounce)
        && |Pending(w', Rewatch)| == 1 && Pending(w, Rewatch) <= Pending(w', Rewatch)
      case Fires(id, watchable) =>
        if id !in w.pending then w' == w.(clock := w'.clock)
        else
          && w'.pending == w.pending - {id} && w'.signalledAt == w.signalledAt && ReadsFile(w, w')
          && (w.pending[id] == Debounce ==> w'.live == w.live)
          && (w.pending[id] == Rewatch ==> (w'.live != {} <==> watchable))
      case Closes => w'.watch.closed && w'.pending == map[] && w'.live == {} && ReadsNothing(w, w')
  {
    hide LastGood;
    match e
    case Delivers(h) => if h in w.live { Restarts(w, start); }
    case Errors(h) => Rearms(w, h, start);
    case _ =>
  }

  lemma Restarts(w: World, start: Config)
    requires Inv(w, start)
    ensures var w' := OnEvent(w); Pending(w', Debounce) == {w.next} && Pending(w', Rewatch) == Pending(w, Rewatch)
    ensures OnEvent(w.(clock := w.clock + 1)).pending == OnEvent(w).pending
  {
    hide LastGood;
    var w' := OnEvent(w);
    assert w.next in w'.pending && w.next !in w.pending;
    assert forall id :: id in w'.pending <==> id == w.next || (id in w.pending && w.pending[id] == Rewatch);
  }

  lemma Rearms(w: World, h: nat, start: Config)
    requires Inv(w, start) && !w.watch.closed
    ensures var w' := OnError(w, h);
      && Pending(w', Debounce) == Pending(w, Debounce) && |Pending(w', Rewatch)| == 1
      && Pending(w, Rewatch) <= Pending(w', Rewatch)
    ensures OnError(w.(clock := w.clock + 1), h).pending == OnError(w, h).pending
  {
    hide LastGood;
    var w' := OnError(w, h);
    var id := if w.watch.rewatch.Some? then w.watch.rewatch.value else w.next;
    assert id in w'.pending && w'.pending[id] == Rewatch;
    assert Pending(w', Rewatch) == {id};
  }
}

/** The watcher itself: the closed-over variables, changed in place by the listener, the error handler and timers. */
module PolicyWatcher {
  import opened Prelude
  import opened Policy

  class Watcher {
    var watcher: Option<nat>
    var timer: Option<nat>
    var rewatch: Option<nat>
    var closed: bool
    var config: Config
    var file: Option<Pinned>
    var live: set<nat>
    var pending: map<nat, TimerKind>
    var next: nat
    ghost var clock: nat
    ghost var changedAt: nat
    ghost var signalledAt: nat
    ghost var reloadedAt: nat
    ghost var seen: seq<Option<Pinned>>

    ghost function View(): World
      reads this
    {
      World(Watch(watcher, timer, rewatch, closed), config, file, live, pending, next,
            clock, changedAt, signalledAt, reloadedAt, seen)
    }

    constructor (config: Config, file: Option<Pinned>, watchable: bool)
      ensures View() == Start(config, file, watchable)
    {
      watcher, timer, rewatch, closed := None, None, None, false;
      this.config, this.file := config, file;
      live, pending, next := {}, map[], 0;
      clock, changedAt, signalledAt, reloadedAt, seen := 1, 1, 0, 0, [];
      new;
      ArmWatch(watchable);
    }

    method ArmWatch(watchable: bool)
      modifies this
      ensures View() == Arm(old(View()), watchable)
    {
      if watchable {
        live := live + {next};
        watcher := Some(next);
        next := next + 1;
      }
    }

    method ReloadPolicy()
      modifies this
      ensures View() == Reload(old(View()))
    {
      if file.Some? { config := config.(policy := file); }
      reloadedAt, seen := clock, seen + [file];
    }

    method HandleEvent()
      modifies this
      ensures View() == OnEvent(old(View()))
    {
      if timer.Some? { pending := pending - {timer.value}; }
      timer := Some(next);
      pending := pending[next := Debounce];
      next := next + 1;
      signalledAt := clock;
    }

    method HandleError(handle: nat)
      modifies this
      ensures View() == OnError(old(View()), handle)
    {
      live := live - {handle};
      if watcher.Some? { live := live - {watcher.value}; }
      watcher := None;
      signalledAt := clock;
      if closed || rewatch.Some? { return; }
      rewatch := Some(next);
      pending := pending[next := Rewatch];
      next := next + 1;
    }

    method HandleTimer(id: nat, watchable: bool)
      requires id in pending
      modifies this
      ensures View() == OnTimer(old(View()), id, watchable)
    {
      var kind := pending[id];
      pending := pending - {id};
      if kind == Debounce {
        ReloadPolicy();
      } else {
        rewatch := None;
        if closed { return; }
        ArmWatch(watchable);
        ReloadPolicy();
      }
    }

    method CloseWatch()
      modifies this
      ensures View() == Close(old(View()))
    {
      closed := true;
      if timer.Some? { pending := pending - {timer.value}; }
      if rewatch.Some? { pending := pending - {rewatch.value}; }
      rewatch := None;
      if watcher.Some? { live := live - {watcher.value}; }
      watcher := None;
    }

    method Happens(e: Event)
      modifies this
      ensures View() == Next(old(View()), e)
    {
      clock := clock + 1;
      match e
      case FileChanges(held) => file, changedAt := held, clock;
      case Delivers(h) => if h in live { HandleEvent(); }
      case Errors(h) => HandleError(h);
      case Fires(id, watchable) => if id in pending { HandleTimer(id, watchable); }
      case Closes => CloseWatch();
    }
  }

  /**
  Any events, played on the watcher itself: it ends where the run ends, with the last good policy, at most one handle,
  and a file change announced since it was made in force once no timer is pending.
  */
  method Play(config: Config, file: Option<Pinned>, watchable: bool, events: seq<Event>) returns (w: Watcher)
    ensures fresh(w) && w.View() == Run(Start(config, file, watchable), events)
    ensures w.config == Config(LastGood(config.policy, w.seen), config.rest) && |w.live| <= 1
    ensures !w.closed && w.pending == map[] && w.changedAt < w.signalledAt && w.file.Some? ==> w.config.policy == w.file
  {
    w := new Watcher(config, file, watchable);
    for i := 0 to |events|
      invariant fresh(w) && w.View() == Run(Start(config, file, watchable), events[..i])
    {
      w.Happens(events[i]);
      assert events[..i + 1][..i] == events[..i];
    }
    assert events[..|events|] == events;
    WatcherSafety(config, file, watchable, events);
  }
}
