/**
The support chat loader: one module state driven by the page, the widget's events and a timer. The widget is a
call that goes through or is refused; every call that names the person or writes the context is logged.
*/
module SupportChat {
  import opened Prelude

  const IDENTIFY_SETTLE_MS := 3000

  datatype Identity = Identity(identifier: string, hash: string, name: Option<string>, email: Option<string>)

  /** A context as it is sent; equal contexts have one spelling, whatever order they were built in. */
  type Context = map<string, string>

  /** The module's state once installed. `settling` is the timer of the hold after a naming. */
  datatype Chat = Chat(
    identity: Option<Identity>,
    ready: bool,
    open: bool,
    context: Option<Context>,
    sent: Option<Context>,
    settling: Option<nat>)

  datatype Entry =
    | Named(at: nat, identity: Identity, attributes: Option<Context>, accepted: bool)
    | Wrote(at: nat, context: Context, accepted: bool)

  /**
  The page: the module, the clock, the pending timers by due time, and the calls logged since the last reset and,
  in `past`, between the resets before it.
  */
  datatype Page = Page(
    chat: Option<Chat>,
    now: nat,
    timers: map<nat, nat>,
    nextTimer: nat,
    log: seq<Entry>,
    past: seq<seq<Entry>>)

  const BLANK := Page(None, 0, map[], 0, [], [])

  /** Whether the widget takes a naming and a write made in this step. */
  datatype Widget = Widget(names: bool, writes: bool)

  datatype Event =
    | Install(identity: Option<Identity>)
    | Ready
    | Opened
    | Closed
    | TimerFires(id: nat)
    | Reset
    | SetContext(context: map<string, Option<string>>)
    | Tick(ms: nat)

  // ------------------------------------------------------------ the functions

  function Logged(p: Page, e: Entry): Page { p.(log := p.log + [e]) }

  function SendContext(p: Page, w: Widget): Page {
    if p.chat == None then p else
      var c := p.chat.value;
      if !c.ready || !c.open || c.context == None || c.settling != None then p
      else if c.context.value == map[] || c.context == c.sent then p
      else
        var p' := Logged(p, Wrote(p.now, c.context.value, w.writes));
        if w.writes then p'.(chat := Some(c.(sent := c.context))) else p'
  }

  function HoldForMerge(p: Page): Page
    requires p.chat.Some?
  {
    var c := p.chat.value;
    var kept := if c.settling.Some? then p.timers - {c.settling.value} else p.timers;
    p.(timers := kept[p.nextTimer := p.now + IDENTIFY_SETTLE_MS], nextTimer := p.nextTimer + 1,
       chat := Some(c.(settling := Some(p.nextTimer))))
  }

  function Riding(c: Chat): Option<Context> {
    if c.open && c.context.Some? && c.context.value != map[] then c.context else None
  }

  function Identify(p: Page, identity: Identity, w: Widget): Page
    requires p.chat.Some?
  {
    var c := p.chat.value;
    var p' := Logged(p, Named(p.now, identity, Riding(c), w.names)).(chat := Some(c.(sent := None)));
    if w.names then HoldForMerge(p') else SendContext(p', w)
  }

  function OnReady(p: Page, w: Widget): Page {
    if p.chat == None then p else
      var c := p.chat.value;
      var p' := p.(chat := Some(c.(ready := true)));
      if c.identity.Some? then Identify(p', c.identity.value, w) else p'
  }

  function OnOpened(p: Page, w: Widget): Page {
    if p.chat == None then p else SendContext(p.(chat := Some(p.chat.value.(open := true, sent := None))), w)
  }

  function OnClosed(p: Page): Page {
    if p.chat == None then p else p.(chat := Some(p.chat.value.(open := false)))
  }

  /** The timer's callback. */
  function OnSettled(p: Page, id: nat, w: Widget): Page {
    if p.chat == None then p.(timers := p.timers - {id})
    else SendContext(p.(timers := p.timers - {id}, chat := Some(p.chat.value.(settling := None, sent := None))), w)
  }

  function InstallSupportChat(p: Page, identity: Option<Identity>, w: Widget): Page {
    match p.chat
    case None => p.(chat := Some(Chat(identity, false, false, None, None, None)))
    case Some(c) =>
      if c.identity == None && identity.Some? then
        var p' := p.(chat := Some(c.(identity := identity)));
        if c.ready then Identify(p', identity.value, w) else p'
      else p
  }

  function ResetSupportChat(p: Page): Page {
    if p.chat == None then p else
      var c := p.chat.value;
      p.(chat := Some(c.(identity := None, open := false, sent := None, settling := None)),
         timers := if c.settling.Some? then p.timers - {c.settling.value} else p.timers,
         past := p.past + [p.log], log := [])
  }

  /** A fact the page does not have travels as an empty string. */
  function Filled(context: map<string, Option<string>>): Context {
    map k <- context :: match context[k] case None => "" case Some(v) => v
  }

  function SetSupportChatContext(p: Page, context: map<string, Option<string>>, w: Widget): Page {
    if p.chat == None then p else
      var c := p.chat.value.(context := Some(Filled(context)));
      SendContext(p.(chat := Some(c)), w)
  }

  /** One event. A timer fires only once it is due. */
  function Next(p: Page, e: Event, w: Widget): Page {
    match e
    case Install(identity) => InstallSupportChat(p, identity, w)
    case Ready => OnReady(p, w)
    case Opened => OnOpened(p, w)
    case Closed => OnClosed(p)
    case TimerFires(id) => if id in p.timers && p.timers[id] <= p.now then OnSettled(p, id, w) else p
    case Reset => ResetSupportChat(p)
    case SetContext(context) => SetSupportChatContext(p, context, w)
    case Tick(ms) => p.(now := p.now + ms)
  }

  function Run(events: seq<(Event, Widget)>): Page {
    if events == [] then BLANK else
      var last := events[|events| - 1];
      Next(Run(events[..|events| - 1]), last.0, last.1)
  }

  // ------------------------------------------------- a run, told by its events

  /**
  What the events alone say of a run: whether the module is installed, ready and open, the first identity handed over
  since the last reset, and in `before` that of each time before it, and the context set last. `early` says the panel
  was opened before the widget was ready, and since then it was neither closed nor reset, no naming fell due and no
  context was set on the ready widget.
  */
  datatype Told = Told(installed: bool, ready: bool, open: bool, early: bool, identity: Option<Identity>,
                       context: Option<Context>, before: seq<Option<Identity>>)

  function Hear(t: Told, e: Event): Told {
    match e
    case Install(None) => t.(installed := true)
    case Install(Some(person)) =>
      t.(installed := true, identity := if t.identity == None then Some(person) else t.identity,
         early := t.early && !(t.ready && t.identity == None))
    case Ready => t.(ready := t.ready || t.installed, early := t.early && t.identity == None)
    case Opened => t.(open := t.installed, early := t.installed && !t.ready)
    case Closed => t.(open := false, early := false)
    case Reset =>
      if t.installed then t.(open := false, early := false, identity := None, before := t.before + [t.identity]) else t
    case SetContext(facts) =>
      t.(context := if t.installed then Some(Filled(facts)) else t.context,
         early := t.early && !(t.ready && facts != map[]))
    case TimerFires(_) => t
    case Tick(_) => t
  }

  function Tell(events: seq<(Event, Widget)>): Told {
    if events == [] then Told(false, false, false, false, None, None, [])
    else Hear(Tell(events[..|events| - 1]), events[|events| - 1].0)
  }

  // ------------------------------------------------------------ the invariant

  function Attributes(e: Entry): Option<Context> {
    match e
    case Named(_, _, attributes, _) => attributes
    case Wrote(_, context, _) => Some(context)
  }

  /** The attributes the widget last took, riding a naming or written on their own. */
  function LastAccepted(log: seq<Entry>): Option<Context> {
    if log == [] then None else
      var e := log[|log| - 1];
      if e.accepted && Attributes(e).Some? then Attributes(e) else LastAccepted(log[..|log| - 1])
  }

  /** The last attempt to send attributes, and whether the widget took it. */
  function LastAttempt(log: seq<Entry>): Option<(Context, bool)> {
    if log == [] then None else
      var e := log[|log| - 1];
      if Attributes(e).Some? then Some((Attributes(e).value, e.accepted)) else LastAttempt(log[..|log| - 1])
  }

  /** The widget has this context, or refused it the last time it was offered anything. */
  predicate Agreed(log: seq<Entry>, context: Context) {
    LastAccepted(log) == Some(context) || LastAttempt(log) == Some((context, false))
  }

  /** Ready, open, not holding, and with something to send. */
  predicate Showing(c: Chat) {
    c.ready && c.open && c.settling == None && c.context.Some? && c.context.value != map[]
  }

  predicate SentOk(p: Page, c: Chat, early: bool) {
    && (c.sent.Some? ==> LastAccepted(p.log) == c.sent)
    && (!c.ready ==> p.log == [] && c.settling == None && (c.open ==> early))
    && (early ==> p.log == [] && c.open && c.settling == None)
  }

  /** No write of its own within the hold of an accepted naming. */
  predicate HoldHonoured(log: seq<Entry>) {
    forall i, j :: 0 <= i < j < |log| && log[i].Named? && log[i].accepted && log[j].Wrote? ==>
      log[i].at + 3000 <= log[j].at
  }

  /** Every accepted naming's hold is over by `t`. */
  predicate HoldsOver(log: seq<Entry>, t: nat) {
    forall i :: 0 <= i < |log| && log[i].Named? && log[i].accepted ==> log[i].at + IDENTIFY_SETTLE_MS <= t
  }

  /** A hold is the one timer pending, due exactly 3000 ms after the last naming the widget took. */
  predicate TimersOk(p: Page, c: Chat) {
    (forall i :: 0 <= i < |p.log| ==> p.log[i].at <= p.now)
    && match c.settling
       case None => p.timers == map[] && HoldsOver(p.log, p.now)
       case Some(id) =>
         && id < p.nextTimer && id in p.timers && p.timers == map[id := p.timers[id]]
         && HoldsOver(p.log, p.timers[id])
         && exists i :: 0 <= i < |p.log| && p.log[i].Named? && p.log[i].accepted && p.timers[id] == p.log[i].at + 3000
  }

  /** All namings carry this identity. */
  predicate NamesOnly(log: seq<Entry>, identity: Option<Identity>) {
    forall i :: 0 <= i < |log| && log[i].Named? ==> identity == Some(log[i].identity)
  }

  predicate EpochOk(log: seq<Entry>, identity: Option<Identity>) { HoldHonoured(log) && NamesOnly(log, identity) }

  predicate PastOk(past: seq<seq<Entry>>, before: seq<Option<Identity>>) {
    |past| == |before| && forall i :: 0 <= i < |past| ==> EpochOk(past[i], before[i])
  }

  /** What the events say of the module's state is so. */
  predicate ToldRight(p: Page, t: Told) {
    match p.chat
    case None => t == Told(false, false, false, false, None, None, t.before)
    case Some(c) =>
      && t.installed && t.ready == c.ready && t.open == c.open && t.identity == c.identity && t.context == c.context
  }

  /** What holds at every point, a naming or a send that has fallen due included. */
  predicate Core(p: Page, t: Told) {
    PastOk(p.past, t.before) && ToldRight(p, t)
    && match p.chat
       case None => p.log == [] && p.timers == map[]
       case Some(c) => EpochOk(p.log, c.identity) && TimersOk(p, c) && SentOk(p, c, t.early)
  }

  /** Some naming has been made. */
  predicate Introduced(log: seq<Entry>) { exists i :: 0 <= i < |log| && log[i].Named? }

  /** ... and what holds between events: whoever is known to a ready widget has been named. */
  predicate Inv(p: Page, t: Told) {
    && Core(p, t)
    && (p.chat.Some? && p.chat.value.ready && p.chat.value.identity.Some? ==> Introduced(p.log))
    && (p.chat.Some? && Showing(p.chat.value) ==> t.early || Agreed(p.log, p.chat.value.context.value))
  }

  lemma LoggedLast(log: seq<Entry>, e: Entry)
    ensures Attributes(e).Some? ==> LastAttempt(log + [e]) == Some((Attributes(e).value, e.accepted))
    ensures LastAccepted(log + [e])
         == if e.accepted && Attributes(e).Some? then Attributes(e) else LastAccepted(log)
  {
    assert (log + [e])[..|log|] == log;
  }

  lemma IntroducedMore(log: seq<Entry>, e: Entry)
    ensures Introduced(log) || e.Named? ==> Introduced(log + [e])
  {
    if i :| 0 <= i < |log| && log[i].Named? { assert (log + [e])[i].Named?; }
    assert (log + [e])[|log|] == e;
  }

  lemma SendsWhatIsDue(p: Page, t: Told, w: Widget)
    requires Core(p, t) && p.chat.Some? && (t.early ==> !Showing(p.chat.value))
    requires p.chat.value.ready && p.chat.value.identity.Some? ==> Introduced(p.log)
    ensures Inv(SendContext(p, w), t)
  {
    var c := p.chat.value;
    IntroducedMore(p.log, Wrote(p.now, if c.context.Some? then c.context.value else map[], w.writes));
    if Showing(c) && c.context != c.sent {
      LoggedLast(p.log, Wrote(p.now, c.context.value, w.writes));
    }
    hide LastAccepted, LastAttempt;
  }

  lemma NamingTaken(p: Page, t: Told)
    requires Core(p, t) && p.chat.Some? && p.chat.value.ready && p.chat.value.identity.Some?
    ensures Inv(Identify(p, p.chat.value.identity.value, Widget(true, false)), t.(early := false))
  {
    var c := p.chat.value;
    var q := Identify(p, c.identity.value, Widget(true, false));
    assert q.timers == map[p.nextTimer := p.now + IDENTIFY_SETTLE_MS];
    IntroducedMore(p.log, q.log[|p.log|]);
    assert q.log[|p.log|].Named? && q.log[|p.log|].accepted && q.log[|p.log|].at == p.now;
    hide LastAccepted, LastAttempt;
  }

  lemma RefusedTimers(p: Page, c: Chat, e: Entry)
    requires TimersOk(p, c) && e.at == p.now && !(e.Named? && e.accepted)
    ensures TimersOk(Logged(p, e), c) && TimersOk(Logged(p, e).(chat := Some(c)), c.(sent := None))
  {
    if c.settling.Some? {
      var i :| 0 <= i < |p.log| && p.log[i].Named? && p.log[i].accepted
             && p.timers[c.settling.value] == p.log[i].at + 3000;
      assert (p.log + [e])[i] == p.log[i];
    }
  }

  lemma NamingRefused(p: Page, t: Told, w: Widget)
    requires Core(p, t) && p.chat.Some? && p.chat.value.ready && p.chat.value.identity.Some? && !w.names
    ensures Inv(Identify(p, p.chat.value.identity.value, w), t.(early := false))
  {
    var c := p.chat.value;
    var e := Named(p.now, c.identity.value, Riding(c), false);
    var q, u := Logged(p, e).(chat := Some(c.(sent := None))), t.(early := false);
    assert Core(q, u) by { RefusedTimers(p, c, e); hide LastAccepted, LastAttempt, SendContext, TimersOk; }
    IntroducedMore(p.log, e);
    hide Core, LastAccepted, LastAttempt, SendContext;
    SendsWhatIsDue(q, u, w);
  }

  lemma NamingKeeps(p: Page, t: Told, w: Widget)
    requires Core(p, t) && p.chat.Some? && p.chat.value.ready && p.chat.value.identity.Some?
    ensures Inv(Identify(p, p.chat.value.identity.value, w), t.(early := false))
  {
    if w.names { NamingTaken(p, t); } else { NamingRefused(p, t, w); }
    hide Core, SendContext;
  }

  lemma ResetKeeps(p: Page, t: Told)
    requires Inv(p, t)
    ensures Inv(ResetSupportChat(p), Hear(t, Reset))
  {
    hide LastAccepted, LastAttempt;
  }

  lemma InstallKeeps(p: Page, t: Told, identity: Option<Identity>, w: Widget)
    requires Inv(p, t)
    ensures Inv(InstallSupportChat(p, identity, w), Hear(t, Install(identity)))
  {
    hide LastAccepted, LastAttempt;
    if p.chat.Some? && p.chat.value.identity == None && identity.Some? && p.chat.value.ready {
      NamingKeeps(p.(chat := Some(p.chat.value.(identity := identity))), t.(identity := identity), w);
    }
  }

  /** What every event keeps. */
  lemma NextKeeps(p: Page, t: Told, e: Event, w: Widget)
    requires Inv(p, t)
    ensures Inv(Next(p, e, w), Hear(t, e))
  {
    hide LastAccepted, LastAttempt;
    match e
    case Install(identity) => InstallKeeps(p, t, identity, w);
    case Ready =>
      if p.chat.Some? && p.chat.value.identity.Some? {
        NamingKeeps(p.(chat := Some(p.chat.value.(ready := true))), t.(ready := true), w);
      }
    case Opened =>
      if p.chat.Some? {
        SendsWhatIsDue(p.(chat := Some(p.chat.value.(open := true, sent := None))), Hear(t, e), w);
      }
    case Closed =>
    case TimerFires(id) =>
      if p.chat.Some? && id in p.timers && p.timers[id] <= p.now {
        var c := p.chat.value.(settling := None, sent := None);
        assert HoldsOver(p.log, p.timers[id]);
        SendsWhatIsDue(p.(timers := p.timers - {id}, chat := Some(c)), t, w);
      }
    case Reset => ResetKeeps(p, t);
    case SetContext(context) =>
      if p.chat.Some? {
        var c := p.chat.value.(context := Some(Filled(context)));
        SendsWhatIsDue(p.(chat := Some(c)), Hear(t, e), w);
      }
    case Tick(ms) =>
  }

  lemma {:induction false} RunKeeps(events: seq<(Event, Widget)>)
    ensures Inv(Run(events), Tell(events))
  {
    if events != [] {
      RunKeeps(events[..|events| - 1]);
      var last := events[|events| - 1];
      NextKeeps(Run(events[..|events| - 1]), Tell(events[..|events| - 1]), last.0, last.1);
    }
  }

  // ------------------------------------------------------------- the promises

  /** The widget reported opened only once it had reported ready. */
  predicate OpenedAfterReady(events: seq<(Event, Widget)>) {
    forall i :: 0 <= i < |events| && events[i].0.Opened? ==> var t := Tell(events[..i]); t.installed ==> t.ready
  }

  lemma {:induction false} NeverEarly(events: seq<(Event, Widget)>)
    requires OpenedAfterReady(events)
    ensures !Tell(events).early
  {
    if events != [] {
      var n := |events| - 1;
      forall i | 0 <= i < n && events[..n][i].0.Opened?
        ensures var t := Tell(events[..n][..i]); t.installed ==> t.ready
      {
        assert events[..n][..i] == events[..i];
      }
      NeverEarly(events[..n]);
    }
  }

  /**
  In every reachable state that is ready, open, not holding and has something to send, the widget's attributes
  are the page's context or the widget refused them last, if and only if the events do not say that the panel was
  opened before ready and nothing fell due since.
  */
  lemma ContextAgrees(events: seq<(Event, Widget)>)
    requires var p := Run(events); p.chat.Some? && Showing(p.chat.value)
    ensures var p := Run(events); Agreed(p.log, p.chat.value.context.value) <==> !Tell(events).early
    ensures OpenedAfterReady(events) ==> Agreed(Run(events).log, Run(events).chat.value.context.value)
  {
    RunKeeps(events);
    if OpenedAfterReady(events) { NeverEarly(events); }
  }

  /** The exception is real: a panel open before ready shows a context the widget was never offered. */
  lemma OpenedTooSoon(w: Widget)
    ensures var p := Run([(Install(None), w), (SetContext(map["page" := Some("inbox")]), w), (Opened, w), (Ready, w)]);
            p.chat.Some? && Showing(p.chat.value) && p.log == []
  {
    var events := [(Install(None), w), (SetContext(map["page" := Some("inbox")]), w), (Opened, w), (Ready, w)];
    assert events[..3][..2][..1] == [(Install(None), w)];
    assert events[..3][..2] == events[..2] && events[..2][1] == events[1] && events[..3][2] == events[2];
    assert Run(events[..2][..1]).chat == Some(Chat(None, false, false, None, None, None)) by {
      assert events[..2][..1] == [(Install(None), w)];
    }
    var page := Filled(map["page" := Some("inbox")]);
    assert "page" in page;
    assert Run(events[..2]).chat == Some(Chat(None, false, false, Some(page), None, None));
    assert Run(events[..3]).chat == Some(Chat(None, false, true, Some(page), None, None));
    RunKeeps(events[..3]);
  }

  /** Everyone a ready widget should know is known to it: the current log holds a naming of the identity handed over. */
  lemma Introduces(events: seq<(Event, Widget)>)
    requires Tell(events).ready && Tell(events).identity.Some?
    ensures exists e <- Run(events).log :: e.Named? && Some(e.identity) == Tell(events).identity
  {
    RunKeeps(events);
    var log := Run(events).log;
    var i :| 0 <= i < |log| && log[i].Named?;
    assert log[i] in log && Some(log[i].identity) == Tell(events).identity;
  }

  /** The calls of each time between two resets, counted from the first, and the identity handed over first in it. */
  function LogOf(events: seq<(Event, Widget)>): seq<seq<Entry>> { Run(events).past + [Run(events).log] }

  function IdentityIn(events: seq<(Event, Widget)>): seq<Option<Identity>> {
    Tell(events).before + [Tell(events).identity]
  }

  /**
  Between two resets, the last stretch included, every naming carries the identity the page handed over first in that
  same stretch, and no write of its own follows an accepted naming until the hold is over.
  */
  lemma EpochPromises(events: seq<(Event, Widget)>, epoch: nat, i: nat, j: nat)
    requires epoch < |LogOf(events)| && i <= j < |LogOf(events)[epoch]| && LogOf(events)[epoch][i].Named?
    ensures |IdentityIn(events)| == |LogOf(events)|
    ensures var log := LogOf(events)[epoch];
      && Some(log[i].identity) == IdentityIn(events)[epoch]
      && (log[i].accepted && log[j].Wrote? ==> log[i].at + 3000 <= log[j].at)
  {
    RunKeeps(events);
    assert EpochOk(LogOf(events)[epoch], IdentityIn(events)[epoch]);
  }

  // --------------------------------------------------------------- what is sent

  /** The event makes a naming due: a known person on a widget just ready, or a person just known to a ready widget. */
  predicate NamingDue(t: Told, e: Event) {
    t.installed
    && if e.Install? then e.identity.Some? && t.identity == None && t.ready else e.Ready? && t.identity.Some?
  }

  function Naming(p: Page, t: Told, e: Event, w: Widget): Entry
    requires NamingDue(t, e)
  {
    Named(p.now, if e.Install? then e.identity.value else t.identity.value,
          if t.open && t.context.Some? && t.context.value != map[] then t.context else None, w.names)
  }

  /** An open, or the end of a hold, on a ready and unheld widget. */
  predicate WriteDue(p: Page, t: Told, e: Event) {
    t.installed && t.ready
    && ((e.Opened? && p.chat.Some? && p.chat.value.settling == None)
        || (e.TimerFires? && e.id in p.timers && p.timers[e.id] <= p.now && t.open))
  }

  /**
  What each event sends. A naming that falls due is made, with the context of an open panel riding it, and followed at
  once by a write exactly when it is refused, unheld and has a context. Every open and every end of a hold writes the
  context, changed or not. A context newly set is written unless it is the one the widget took last since then. Nothing
  else sends.
  */
  lemma SendsExactly(p: Page, t: Told, e: Event, w: Widget)
    requires Inv(p, t) && !e.Reset?
    ensures var (q, u) := (Next(p, e, w), Hear(t, e));
      if NamingDue(t, e) then
        q.log == p.log + [Naming(p, t, e, w)]
               + if !w.names && p.chat.value.settling == None && Naming(p, t, e, w).attributes.Some?
                 then [Wrote(p.now, t.context.value, w.writes)] else []
      else if WriteDue(p, t, e) then
        q.log == p.log + if t.context.Some? && t.context.value != map[]
                         then [Wrote(p.now, t.context.value, w.writes)] else []
      else if e.SetContext? && p.chat.Some? && Showing(q.chat.value) then
        q.log == p.log + if p.chat.value.sent == u.context then [] else [Wrote(p.now, u.context.value, w.writes)]
      else q.log == p.log
  {
    hide LastAccepted, LastAttempt, TimersOk, EpochOk, PastOk;
    Shorter(p.log);
    if NamingDue(t, e) { Shorter(p.log + [Naming(p, t, e, w)]); }
  }

  lemma Shorter(log: seq<Entry>)
    ensures log + [] == log
  {}

  /** The widget's last answer is remembered: a write it took need not be repeated, one it refused is tried again. */
  lemma TakenIsRemembered(p: Page, t: Told, e: Event, w: Widget)
    requires Inv(p, t) && |Next(p, e, w).log| > 0
    requires var log := Next(p, e, w).log; |log| > |p.log| && log[|log| - 1].Wrote?
    ensures var (q, log) := (Next(p, e, w), Next(p, e, w).log);
      && q.chat.Some? && q.chat.value.context == Some(log[|log| - 1].context)
      && (q.chat.value.sent == q.chat.value.context <==> w.writes)
  {
    hide LastAccepted, LastAttempt, TimersOk, EpochOk, PastOk;
  }

  /** A fact the page does not have is an empty string; no fact is dropped or added. */
  lemma FilledIs(facts: map<string, Option<string>>, k: string)
    ensures k in Filled(facts) <==> k in facts
    ensures k in facts ==> Filled(facts)[k] == if facts[k].Some? then facts[k].value else ""
  {}
}

/** The module itself: its fields changed in place by the exported functions, the event handlers and the timer. */
module SupportChatModule {
  import opened Prelude
  import opened SupportChat

  class Loader {
    var installed: bool
    var identity: Option<Identity>
    var ready: bool
    var open: bool
    var context: Option<Context>
    var sent: Option<Context>
    var settling: Option<nat>
    var now: nat
    var timers: map<nat, nat>
    var nextTimer: nat
    ghost var log: seq<Entry>
    ghost var past: seq<seq<Entry>>

    ghost function View(): Page
      reads this
    {
      Page(if installed then Some(Chat(identity, ready, open, context, sent, settling)) else None,
           now, timers, nextTimer, log, past)
    }

    constructor ()
      ensures View() == BLANK
    {
      installed, identity, ready, open := false, None, false, false;
      context, sent, settling := None, None, None;
      now, timers, nextTimer := 0, map[], 0;
      log, past := [], [];
    }

    method Send(w: Widget)
      modifies this
      ensures View() == SendContext(old(View()), w)
    {
      if !installed || !ready || !open || context == None || settling != None { return; }
      if context.value == map[] { return; }
      if context == sent { return; }
      log := log + [Wrote(now, context.value, w.writes)];
      if w.writes { sent := context; }
    }

    method Hold()
      requires installed
      modifies this
      ensures View() == HoldForMerge(old(View()))
    {
      if settling != None { timers := timers - {settling.value}; }
      timers := timers[nextTimer := now + IDENTIFY_SETTLE_MS];
      settling := Some(nextTimer);
      nextTimer := nextTimer + 1;
    }

    method Name(person: Identity, w: Widget)
      requires installed
      modifies this
      ensures View() == Identify(old(View()), person, w)
    {
      var riding := if open && context.Some? && context.value != map[] then context else None;
      log := log + [Named(now, person, riding, w.names)];
      sent := None;
      if w.names { Hold(); } else { Send(w); }
    }

    method HandleReady(w: Widget)
      modifies this
      ensures View() == OnReady(old(View()), w)
    {
      if !installed { return; }
      ready := true;
      if identity.Some? { Name(identity.value, w); }
    }

    method HandleOpened(w: Widget)
      modifies this
      ensures View() == OnOpened(old(View()), w)
    {
      if !installed { return; }
      open := true;
      sent := None;
      Send(w);
    }

    method HandleClosed()
      modifies this
      ensures View() == OnClosed(old(View()))
    {
      if installed { open := false; }
    }

    method HandleTimer(id: nat, w: Widget)
      modifies this
      ensures View() == OnSettled(old(View()), id, w)
    {
      timers := timers - {id};
      if !installed { return; }
      settling := None;
      sent := None;
      Send(w);
    }

    method Install(person: Option<Identity>, w: Widget)
      modifies this
      ensures View() == InstallSupportChat(old(View()), person, w)
    {
      if installed {
        if identity == None && person.Some? {
          identity := person;
          if ready { Name(person.value, w); }
        }
        return;
      }
      installed, identity, ready, open := true, person, false, false;
      context, sent, settling := None, None, None;
    }

    method Reset()
      modifies this
      ensures View() == ResetSupportChat(old(View()))
    {
      if !installed { return; }
      identity := None;
      open := false;
      sent := None;
      if settling != None { timers := timers - {settling.value}; }
      settling := None;
      past, log := past + [log], [];
    }

    method SetContext(facts: map<string, Option<string>>, w: Widget)
      modifies this
      ensures View() == SetSupportChatContext(old(View()), facts, w)
    {
      if !installed { return; }
      context := Some(Filled(facts));
      Send(w);
    }

    method Happens(e: Event, w: Widget)
      modifies this
      ensures View() == Next(old(View()), e, w)
    {
      match e
      case Install(person) => Install(person, w);
      case Ready => HandleReady(w);
      case Opened => HandleOpened(w);
      case Closed => HandleClosed();
      case TimerFires(id) => if id in timers && timers[id] <= now { HandleTimer(id, w); }
      case Reset => Reset();
      case SetContext(facts) => SetContext(facts, w);
      case Tick(ms) => now := now + ms;
    }
  }

  /**
  Any events, played on the module itself: it ends where the run ends, so a panel that is open on a ready widget and
  not held shows the context it was given, or one the widget refused, unless it was opened too early.
  */
  method Play(events: seq<(Event, Widget)>) returns (chat: Loader)
    ensures fresh(chat) && chat.View() == Run(events)
    ensures chat.View().chat.Some? && Showing(chat.View().chat.value) ==>
      (Agreed(chat.log, chat.context.value) <==> !Tell(events).early)
  {
    chat := new Loader();
    for i := 0 to |events|
      invariant fresh(chat) && chat.View() == Run(events[..i])
    {
      chat.Happens(events[i].0, events[i].1);
      assert events[..i + 1][..i] == events[..i];
    }
    assert events[..|events|] == events;
    if chat.installed && Showing(Run(events).chat.value) { ContextAgrees(events); }
  }
}
