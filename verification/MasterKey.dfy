/**
The master-key protocol: any number of managers over one database, each asynchronous call cut at its
awaits, and every interleaving of the pieces. Cryptography is ideal: a derived key names the key and purpose
it came from, and a ciphertext opens only under the key that sealed it.
*/
module MasterKey {
  import opened Prelude

  const CANARY_PLAINTEXT := "CANARY"
  const CANARY_PURPOSE := "master-key-canary"
  const ENCRYPTION := "encryption"

  type Key = string

  datatype Derived = Derive(unlockKey: Key, purpose: string)

  datatype Cipher = Sealed(plaintext: string, under: Derived)

  /** Decryption, and `None` where it throws. */
  function Decrypt(c: Cipher, key: Derived): Option<string> {
    if c.under == key then Some(c.plaintext) else None
  }

  /** `checkCanary`. */
  predicate Opens(c: Cipher, k: Key) { Decrypt(c, Derive(k, CANARY_PURPOSE)) == Some(CANARY_PLAINTEXT) }

  datatype KeyState = Unset | Locked | Unlocked

  /**
  One manager's fields, and `called`, which of its registrations it has called, in order. A promise is the key it
  will give.
  */
  datatype Manager = Manager(
    key: Option<Derived>,
    derivedKeys: map<string, Derived>,
    derivingKeys: map<string, Derived>,
    unlockKeyHex: Option<Key>,
    authPublicKeyHex: Option<string>,
    state: KeyState,
    unlockCallbacks: seq<nat>,
    called: seq<nat>)

  const FRESH := Manager(None, map[], map[], None, None, Unset, [], [])

  // ------------------------------ what each synchronous piece does to a manager

  /** `setUnlocked` up to its await. */
  function BeginUnlock(m: Manager, k: Key): Manager {
    m.(unlockKeyHex := Some(k), derivedKeys := map[], derivingKeys := map[])
  }

  /**
  `setUnlocked` after its await. The callbacks run only on leaving a locked state, and only the first `count` of them
  when one throws: nothing catches it, so the loop ends with the one that did.
  */
  function FinishUnlock(m: Manager, k: Key, count: nat): Manager {
    m.(key := Some(Derive(k, ENCRYPTION)), state := Unlocked,
       called := if m.state != Unlocked then m.called + UpTo(Min(count, |m.unlockCallbacks|)) else m.called)
  }

  function Register(m: Manager, callback: nat): Manager {
    m.(unlockCallbacks := m.unlockCallbacks + [callback],
       called := if m.state == Unlocked then m.called + [|m.unlockCallbacks|] else m.called)
  }

  datatype Asked = Cached(key: Derived) | Refused | Awaiting(promise: Derived)

  /** `getDerivedKey` up to its await. */
  function Ask(m: Manager, purpose: string): (Manager, Asked) {
    if purpose in m.derivedKeys then (m, Cached(m.derivedKeys[purpose]))
    else if m.unlockKeyHex == None then (m, Refused)
    else if purpose in m.derivingKeys then (m, Awaiting(m.derivingKeys[purpose]))
    else
      var promise := Derive(m.unlockKeyHex.value, purpose);
      (m.(derivingKeys := m.derivingKeys[purpose := promise]), Awaiting(promise))
  }

  /** `getDerivedKey` after its await. */
  function Land(m: Manager, purpose: string, key: Derived): Manager {
    m.(derivedKeys := m.derivedKeys[purpose := key])
  }

  /** The `finally` of a derivation, which drops whatever promise is filed under its purpose by then. */
  function Settle(m: Manager, purpose: string): Manager { m.(derivingKeys := m.derivingKeys - {purpose}) }

  // --------------------------------------------------------------- the system

  datatype Db = Db(canary: Option<Cipher>, publicKey: Option<string>)

  /** A call in flight, at the await it has reached. */
  datatype Task =
    | InitLoading(who: nat, given: Option<(Key, string)>)
    | InitLoaded(who: nat, given: Option<(Key, string)>, canary: Option<Cipher>)
    | InitChecking(who: nat, key: Key, public: string, sealed: Cipher)
    | PublicLoading(who: nat, key: Key, public: string)
    | PublicLoaded(who: nat, key: Key, public: string, stored: Option<string>, queried: bool)
    | PublicWriting(who: nat, key: Key, public: string)
    | PublicWritten(who: nat, key: Key, public: string)
    | SetupDeriving(who: nat, key: Key, public: string)
    | SetupEnrolling(who: nat, key: Key, public: string)
    | SetupAnswered(who: nat, key: Key, public: string, enrolled: bool)
    | UnlockLoading(who: nat, key: Key)
    | UnlockLoaded(who: nat, key: Key, canary: Option<Cipher>)
    | UnlockChecking(who: nat, key: Key, sealed: Cipher)
    | Unlocking(who: nat, key: Key)
    | KeyAwaiting(who: nat, purpose: string, promise: Derived)
    | Finished(who: nat)

  datatype Call =
    | Initialize(given: Option<(Key, string)>)
    | Setup(key: Key, public: string)
    | Unlock(key: Key)
    | OnUnlock(callback: nat)
    | GetDerivedKey(purpose: string)

  /**
  A call on a manager, the `finally` of one of its derivations, or a task moving on, failing at its await, or moving on
  to unlock with callback `at` the first that throws.
  */
  datatype Event =
    | Calls(who: nat, call: Call)
    | Settles(who: nat, purpose: string)
    | Advances(task: nat)
    | Fails(task: nat)
    | Throws(task: nat, at: nat)

  datatype Answer = Answer(who: nat, purpose: string, key: Derived)

  /** `answers` are the derived keys handed to callers; `wins` the enrolments the database committed. */
  datatype Sys = Sys(db: Db, managers: seq<Manager>, tasks: seq<Task>, answers: seq<Answer>, wins: seq<Key>)

  function Start(db: Db, n: nat): Sys { Sys(db, seq(n, _ => FRESH), [], [], []) }

  function Spawn(s: Sys, t: Task): Sys { s.(tasks := s.tasks + [t]) }

  function Put(s: Sys, who: nat, m: Manager): Sys
    requires who < |s.managers|
  {
    s.(managers := s.managers[who := m])
  }

  /** `setup` up to its first await. */
  function BeginSetup(m: Manager, who: nat, key: Key, public: string): Task {
    if m.state != Unset then Finished(who) else SetupDeriving(who, key, public)
  }

  /** One call in flight moved on, or one of its statements executed by the database: where it stands then. */
  function Resumed(db: Db, m: Manager, t: Task): Task {
    match t
    case InitLoading(w, given) => InitLoaded(w, given, db.canary)
    case InitLoaded(w, Some((k, p)), Some(c)) => InitChecking(w, k, p, c)
    case InitLoaded(w, None, Some(_)) => Finished(w)
    case InitLoaded(w, Some((k, p)), None) => BeginSetup(m, w, k, p)
    case InitLoaded(w, None, None) => Finished(w)
    case InitChecking(w, k, p, c) =>
      if !Opens(c, k) then Finished(w)
      else if m.authPublicKeyHex.Some? then PublicLoaded(w, k, p, m.authPublicKeyHex, false)
      else PublicLoading(w, k, p)
    case PublicLoading(w, k, p) => PublicLoaded(w, k, p, db.publicKey, true)
    case PublicLoaded(w, k, p, stored, _) => if stored == Some(p) then Unlocking(w, k) else PublicWriting(w, k, p)
    case PublicWriting(w, k, p) => PublicWritten(w, k, p)
    case PublicWritten(w, k, p) => Unlocking(w, k)
    case SetupDeriving(w, k, p) => SetupEnrolling(w, k, p)
    case SetupEnrolling(w, k, p) => SetupAnswered(w, k, p, db.canary == None)
    case SetupAnswered(w, k, p, enrolled) => if enrolled then Unlocking(w, k) else Finished(w)
    case UnlockLoading(w, k) => UnlockLoaded(w, k, db.canary)
    case UnlockLoaded(w, k, None) => Finished(w)
    case UnlockLoaded(w, k, Some(c)) => UnlockChecking(w, k, c)
    case UnlockChecking(w, k, c) => if Opens(c, k) then Unlocking(w, k) else Finished(w)
    case Unlocking(w, k) => Finished(w)
    case KeyAwaiting(w, _, _) => Finished(w)
    case Finished(w) => Finished(w)
  }

  /** ... what it does to its manager ... */
  function Touched(m: Manager, t: Task): Manager {
    match t
    case InitLoaded(_, None, Some(_)) => m.(state := Locked)
    case InitLoaded(_, None, None) => m.(state := Unset)
    case InitChecking(_, k, _, c) => if Opens(c, k) then m else m.(state := Locked)
    case PublicLoaded(_, k, p, stored, queried) =>
      var m' := if queried then m.(authPublicKeyHex := stored) else m;
      if stored == Some(p) then BeginUnlock(m', k) else m'
    case PublicWritten(_, k, p) => BeginUnlock(m.(authPublicKeyHex := Some(p)), k)
    case SetupAnswered(_, k, p, true) => BeginUnlock(m.(authPublicKeyHex := Some(p)), k)
    case UnlockChecking(_, k, c) => if Opens(c, k) then BeginUnlock(m, k) else m
    case Unlocking(_, k) => FinishUnlock(m, k, |m.unlockCallbacks|)
    case KeyAwaiting(_, purpose, promise) => Land(m, purpose, promise)
    case _ => m
  }

  /** ... and to the database. The enrolment is one transaction: both rows, or neither. */
  function Written(db: Db, t: Task): Db {
    match t
    case SetupEnrolling(_, k, p) =>
      if db.canary.Some? then db
      else Db(Some(Sealed(CANARY_PLAINTEXT, Derive(k, CANARY_PURPOSE))), Some(p))
    case PublicWriting(_, _, p) => db.(publicKey := Some(p))
    case _ => db
  }

  function Called(s: Sys, w: nat, call: Call): Sys
    requires w < |s.managers|
  {
    var m := s.managers[w];
    match call
    case Initialize(given) => Spawn(s, InitLoading(w, given))
    case Setup(k, p) => Spawn(s, BeginSetup(m, w, k, p))
    case Unlock(k) => Spawn(s, UnlockLoading(w, k))
    case OnUnlock(callback) => Put(s, w, Register(m, callback))
    case GetDerivedKey(purpose) =>
      var (m', asked) := Ask(m, purpose);
      match asked
      case Refused => s
      case Cached(key) => s.(answers := s.answers + [Answer(w, purpose, key)])
      case Awaiting(promise) => Spawn(Put(s, w, m'), KeyAwaiting(w, purpose, promise))
  }

  function Advanced(s: Sys, i: nat): Sys
    requires i < |s.tasks| && s.tasks[i].who < |s.managers|
  {
    var t := s.tasks[i];
    var m := s.managers[t.who];
    Sys(Written(s.db, t), s.managers[t.who := Touched(m, t)], s.tasks[i := Resumed(s.db, m, t)],
        if t.KeyAwaiting? then s.answers + [Answer(t.who, t.purpose, t.promise)] else s.answers,
        if t.SetupEnrolling? && s.db.canary == None then s.wins + [t.key] else s.wins)
  }

  /** A check of the canary that fails answers false, so `initialize` locks; any other failure ends the call there. */
  function Failed(s: Sys, i: nat): Sys
    requires i < |s.tasks| && s.tasks[i].who < |s.managers|
  {
    var w := s.tasks[i].who;
    var s' := if s.tasks[i].InitChecking? then Put(s, w, s.managers[w].(state := Locked)) else s;
    s'.(tasks := s.tasks[i := Finished(w)])
  }

  /** The task is about to run its manager's callbacks, and there is one at `at` to throw. */
  predicate CanThrow(s: Sys, i: nat, at: nat) {
    i < |s.tasks| && s.tasks[i].Unlocking? && s.tasks[i].who < |s.managers|
    && s.managers[s.tasks[i].who].state != Unlocked && at < |s.managers[s.tasks[i].who].unlockCallbacks|
  }

  function Threw(s: Sys, i: nat, at: nat): Sys
    requires CanThrow(s, i, at)
  {
    var w := s.tasks[i].who;
    Put(s, w, FinishUnlock(s.managers[w], s.tasks[i].key, at + 1)).(tasks := s.tasks[i := Finished(w)])
  }

  /** One step; an event that names nothing changes nothing. */
  function Next(s: Sys, e: Event): Sys {
    match e
    case Calls(w, call) => if w < |s.managers| then Called(s, w, call) else s
    case Settles(w, purpose) => if w < |s.managers| then Put(s, w, Settle(s.managers[w], purpose)) else s
    case Advances(i) => if i < |s.tasks| && s.tasks[i].who < |s.managers| then Advanced(s, i) else s
    case Fails(i) => if i < |s.tasks| && s.tasks[i].who < |s.managers| then Failed(s, i) else s
    case Throws(i, at) => if CanThrow(s, i, at) then Threw(s, i, at) else s
  }

  function Run(s: Sys, events: seq<Event>): Sys {
    if events == [] then s else Next(Run(s, events[..|events| - 1]), events[|events| - 1])
  }

  // ------------------------------------------------------------ the invariant

  /** `k` is the key the database was enrolled under. */
  predicate Enrolled(canary: Option<Cipher>, k: Key) { canary.Some? && Opens(canary.value, k) }

  /** `key` is the enrolled key's derivation for `purpose`. */
  predicate Right(canary: Option<Cipher>, purpose: string, key: Derived) {
    Enrolled(canary, key.unlockKey) && key.purpose == purpose
  }

  predicate RightMap(canary: Option<Cipher>, keys: map<string, Derived>) {
    forall p <- keys :: Right(canary, p, keys[p])
  }

  predicate ManagerOk(canary: Option<Cipher>, m: Manager) {
    && (m.unlockKeyHex.Some? ==> Enrolled(canary, m.unlockKeyHex.value))
    && (m.key.Some? ==> Right(canary, ENCRYPTION, m.key.value))
    && (m.state == Unlocked ==> m.unlockKeyHex.Some? && m.key.Some?)
    && RightMap(canary, m.derivedKeys) && RightMap(canary, m.derivingKeys)
  }

  predicate TaskOk(canary: Option<Cipher>, t: Task) {
    match t
    case InitLoaded(_, _, seen) => seen.Some? ==> seen == canary
    case UnlockLoaded(_, _, seen) => seen.Some? ==> seen == canary
    case InitChecking(_, _, _, c) => canary == Some(c)
    case UnlockChecking(_, _, c) => canary == Some(c)
    case PublicLoading(_, k, _) => Enrolled(canary, k)
    case PublicLoaded(_, k, _, _, _) => Enrolled(canary, k)
    case PublicWriting(_, k, _) => Enrolled(canary, k)
    case PublicWritten(_, k, _) => Enrolled(canary, k)
    case SetupAnswered(_, k, _, enrolled) => enrolled ==> Enrolled(canary, k)
    case Unlocking(_, k) => Enrolled(canary, k)
    case KeyAwaiting(_, purpose, promise) => Right(canary, purpose, promise)
    case _ => true
  }

  predicate ManagersOk(canary: Option<Cipher>, managers: seq<Manager>) {
    forall w :: 0 <= w < |managers| ==> ManagerOk(canary, managers[w])
  }

  /** A task belongs to a manager, and one about to finish an unlock has already stored the key. */
  predicate Owned(managers: seq<Manager>, t: Task) {
    t.who < |managers| && (t.Unlocking? ==> managers[t.who].unlockKeyHex.Some?)
  }

  predicate TasksOk(canary: Option<Cipher>, tasks: seq<Task>) {
    forall i :: 0 <= i < |tasks| ==> TaskOk(canary, tasks[i])
  }

  predicate TasksOwned(managers: seq<Manager>, tasks: seq<Task>) {
    forall i :: 0 <= i < |tasks| ==> Owned(managers, tasks[i])
  }

  predicate AnswersOk(canary: Option<Cipher>, answers: seq<Answer>) {
    forall i :: 0 <= i < |answers| ==> Right(canary, answers[i].purpose, answers[i].key)
  }

  predicate WinsOk(canary: Option<Cipher>, wins: seq<Key>) {
    wins == [] || (|wins| == 1 && Enrolled(canary, wins[0]))
  }

  predicate Inv(s: Sys) {
    && ManagersOk(s.db.canary, s.managers) && TasksOk(s.db.canary, s.tasks) && TasksOwned(s.managers, s.tasks)
    && AnswersOk(s.db.canary, s.answers) && WinsOk(s.db.canary, s.wins)
  }

  /** Writing the first canary disturbs nothing: before it, nothing could hold a key. */
  lemma FirstCanary(s: Sys, canary: Option<Cipher>)
    requires Inv(s) && s.db.canary == None
    ensures ManagersOk(canary, s.managers) && TasksOk(canary, s.tasks)
    ensures AnswersOk(canary, s.answers) && s.wins == []
  {
    forall w | 0 <= w < |s.managers| ensures ManagerOk(canary, s.managers[w]) {
      assert ManagerOk(None, s.managers[w]);
    }
    forall i | 0 <= i < |s.tasks| ensures TaskOk(canary, s.tasks[i]) { assert TaskOk(None, s.tasks[i]); }
  }

  lemma PutOk(s: Sys, w: nat, m: Manager)
    requires Inv(s) && w < |s.managers| && ManagerOk(s.db.canary, m)
    requires s.managers[w].unlockKeyHex.Some? ==> m.unlockKeyHex.Some?
    ensures Inv(Put(s, w, m))
  {
    forall i | 0 <= i < |s.tasks| ensures Owned(Put(s, w, m).managers, s.tasks[i]) {
      assert Owned(s.managers, s.tasks[i]);
    }
  }

  lemma SpawnOk(s: Sys, t: Task)
    requires Inv(s) && TaskOk(s.db.canary, t) && Owned(s.managers, t)
    ensures Inv(Spawn(s, t))
  {}

  lemma TouchedOk(canary: Option<Cipher>, m: Manager, t: Task)
    requires ManagerOk(canary, m) && TaskOk(canary, t) && (t.Unlocking? ==> m.unlockKeyHex.Some?)
    ensures ManagerOk(canary, Touched(m, t))
  {}

  lemma ResumedOk(db: Db, m: Manager, t: Task)
    requires TaskOk(db.canary, t)
    ensures var t' := Resumed(db, m, t);
            TaskOk(Written(db, t).canary, t') && t'.who == t.who
            && (t'.Unlocking? ==> Touched(m, t).unlockKeyHex.Some?)
    ensures m.unlockKeyHex.Some? ==> Touched(m, t).unlockKeyHex.Some?
  {}

  lemma AskOk(canary: Option<Cipher>, m: Manager, purpose: string)
    requires ManagerOk(canary, m)
    ensures var (m', asked) := Ask(m, purpose);
            && ManagerOk(canary, m') && m'.unlockKeyHex == m.unlockKeyHex
            && (asked.Cached? ==> Right(canary, purpose, asked.key))
            && (asked.Awaiting? ==> Right(canary, purpose, asked.promise))
  {}

  /** A change of database, one manager and one task, judged separately. */
  lemma AssembleOk(s: Sys, s': Sys, i: nat, t: Task, m: Manager)
    requires i < |s.tasks| && s.tasks[i].who < |s.managers|
    requires s'.managers == s.managers[s.tasks[i].who := m] && s'.tasks == s.tasks[i := t]
    requires ManagersOk(s'.db.canary, s.managers) && TasksOk(s'.db.canary, s.tasks) && TasksOwned(s.managers, s.tasks)
    requires AnswersOk(s'.db.canary, s'.answers) && WinsOk(s'.db.canary, s'.wins)
    requires ManagerOk(s'.db.canary, m) && TaskOk(s'.db.canary, t)
    requires t.who == s.tasks[i].who && (t.Unlocking? ==> m.unlockKeyHex.Some?)
    requires s.managers[t.who].unlockKeyHex.Some? ==> m.unlockKeyHex.Some?
    ensures Inv(s')
  {
    forall j | 0 <= j < |s'.tasks| ensures Owned(s'.managers, s'.tasks[j]) {
      assert Owned(s.managers, s.tasks[j]);
    }
  }

  lemma AdvancedOk(s: Sys, i: nat)
    requires Inv(s) && i < |s.tasks| && s.tasks[i].who < |s.managers|
    ensures Inv(Advanced(s, i)) && (s.db.canary.Some? ==> Advanced(s, i).db.canary == s.db.canary)
  {
    var t, s' := s.tasks[i], Advanced(s, i);
    var m := s.managers[t.who];
    assert ManagerOk(s.db.canary, m) && TaskOk(s.db.canary, t) && Owned(s.managers, t);
    ResumedOk(s.db, m, t);
    if t.SetupEnrolling? && s.db.canary == None {
      FirstCanary(s, s'.db.canary);
      assert Enrolled(s'.db.canary, t.key);
      AssembleOk(s, s', i, Resumed(s.db, m, t), Touched(m, t));
    } else {
      TouchedOk(s.db.canary, m, t);
      AssembleOk(s, s', i, Resumed(s.db, m, t), Touched(m, t));
    }
  }

  lemma CalledOk(s: Sys, w: nat, call: Call)
    requires Inv(s) && w < |s.managers|
    ensures Inv(Called(s, w, call)) && Called(s, w, call).db == s.db
  {
    var m := s.managers[w];
    assert ManagerOk(s.db.canary, m);
    match call
    case Initialize(given) => SpawnOk(s, InitLoading(w, given));
    case Setup(k, p) => SpawnOk(s, BeginSetup(m, w, k, p));
    case Unlock(k) => SpawnOk(s, UnlockLoading(w, k));
    case OnUnlock(callback) => PutOk(s, w, Register(m, callback));
    case GetDerivedKey(purpose) =>
      var (m', asked) := Ask(m, purpose);
      AskOk(s.db.canary, m, purpose);
      if asked.Awaiting? {
        PutOk(s, w, m');
        SpawnOk(Put(s, w, m'), KeyAwaiting(w, purpose, asked.promise));
      }
  }

  lemma FailedOk(s: Sys, i: nat)
    requires Inv(s) && i < |s.tasks|
    ensures s.tasks[i].who < |s.managers| && Inv(Failed(s, i))
  {
    var t := s.tasks[i];
    assert Owned(s.managers, t);
    var m := if t.InitChecking? then s.managers[t.who].(state := Locked) else s.managers[t.who];
    assert ManagerOk(s.db.canary, s.managers[t.who]);
    AssembleOk(s, Failed(s, i), i, Finished(t.who), m);
  }

  lemma ThrewOk(s: Sys, i: nat, at: nat)
    requires Inv(s) && CanThrow(s, i, at)
    ensures Inv(Threw(s, i, at))
  {
    var t := s.tasks[i];
    var m := s.managers[t.who];
    assert Owned(s.managers, t) && TaskOk(s.db.canary, t) && ManagerOk(s.db.canary, m);
    AssembleOk(s, Threw(s, i, at), i, Finished(t.who), FinishUnlock(m, t.key, at + 1));
  }

  /** What every step keeps; a canary once stored is never replaced. */
  lemma NextOk(s: Sys, e: Event)
    requires Inv(s)
    ensures Inv(Next(s, e)) && |Next(s, e).managers| == |s.managers|
    ensures s.db.canary.Some? ==> Next(s, e).db.canary == s.db.canary && Next(s, e).wins == s.wins
  {
    match e
    case Calls(w, call) =>
      if w < |s.managers| { CalledOk(s, w, call); }
    case Settles(w, purpose) =>
      if w < |s.managers| {
        assert ManagerOk(s.db.canary, s.managers[w]);
        PutOk(s, w, Settle(s.managers[w], purpose));
      }
    case Advances(i) =>
      if i < |s.tasks| && s.tasks[i].who < |s.managers| { AdvancedOk(s, i); }
    case Fails(i) => if i < |s.tasks| { FailedOk(s, i); }
    case Throws(i, at) => if CanThrow(s, i, at) { ThrewOk(s, i, at); }
  }

  lemma {:induction false} RunOk(s: Sys, events: seq<Event>)
    requires Inv(s)
    ensures Inv(Run(s, events)) && |Run(s, events).managers| == |s.managers|
    ensures s.db.canary.Some? ==> Run(s, events).db.canary == s.db.canary && Run(s, events).wins == s.wins
  {
    if events != [] {
      RunOk(s, events[..|events| - 1]);
      NextOk(Run(s, events[..|events| - 1]), events[|events| - 1]);
    }
  }

  // ------------------------------------------------------------- the promises

  predicate IsUnlocked(s: Sys, w: nat) { w < |s.managers| && s.managers[w].state == Unlocked }

  /** A stored canary has a public key beside it. */
  predicate Sound(db: Db) { db.canary.Some? ==> db.publicKey.Some? }

  lemma StartOk(db: Db, n: nat)
    ensures Inv(Start(db, n))
  {}

  /** Once there, a public key stays, and an enrolment writes its own. */
  lemma {:induction false} PublicKeyStays(s: Sys, events: seq<Event>)
    ensures s.db.publicKey.Some? ==> Run(s, events).db.publicKey.Some?
    ensures Sound(s.db) ==> Sound(Run(s, events).db)
  {
    if events != [] { PublicKeyStays(s, events[..|events| - 1]); }
  }

  /**
  Over any number of managers, any starting database and any interleaving: an existing canary is never replaced, at
  most one enrolment wins, every unlocked manager holds the enrolled key, so any two hold the same one, and a canary
  has a public key beside it unless it started without one and nobody has supplied it yet.
  */
  lemma EnrolmentSafety(db: Db, n: nat, events: seq<Event>)
    ensures var s := Run(Start(db, n), events);
      && (Sound(db) ==> Sound(s.db)) && |s.wins| <= 1
      && (db.canary.Some? ==> s.db.canary == db.canary && s.wins == [])
      && (forall w: nat :: IsUnlocked(s, w) ==>
            s.managers[w].unlockKeyHex.Some? && Enrolled(s.db.canary, s.managers[w].unlockKeyHex.value))
      && (forall w: nat, k :: IsUnlocked(s, w) && k in s.wins ==>
            s.managers[w].unlockKeyHex == Some(k) && s.managers[w].key == Some(Derive(k, ENCRYPTION)))
      && (forall v: nat, w: nat :: IsUnlocked(s, v) && IsUnlocked(s, w) ==>
            s.managers[v].unlockKeyHex == s.managers[w].unlockKeyHex && s.managers[v].key == s.managers[w].key)
  {
    hide Next, TasksOk, TasksOwned;
    StartOk(db, n);
    RunOk(Start(db, n), events);
    PublicKeyStays(Start(db, n), events);
    hide Run;
    var s := Run(Start(db, n), events);
    assert forall w :: 0 <= w < |s.managers| ==> ManagerOk(s.db.canary, s.managers[w]);
  }

  /**
  Every derived key a caller was ever handed is the enrolled key's derivation for the purpose it asked for,
  wherever the derivation began and whatever was cleared before it landed.
  */
  lemma DerivedKeySafety(db: Db, n: nat, events: seq<Event>, i: nat)
    requires i < |Run(Start(db, n), events).answers|
    ensures var s := Run(Start(db, n), events);
            var a := s.answers[i];
            Enrolled(s.db.canary, a.key.unlockKey) && a.key == Derive(a.key.unlockKey, a.purpose)
  {
    StartOk(db, n);
    RunOk(Start(db, n), events);
    var s := Run(Start(db, n), events);
    assert Right(s.db.canary, s.answers[i].purpose, s.answers[i].key);
  }

  // ------------------------------------------------------- the public key backfill

  /** The task has seen a public key stored, or stored one. */
  predicate Filled(t: Task) {
    match t
    case PublicLoaded(_, _, _, stored, _) => stored.Some?
    case PublicWritten(_, _, _) => true
    case SetupAnswered(_, _, _, enrolled) => enrolled
    case _ => false
  }

  /** Whoever knows a public key knows it from the database. */
  predicate PublicOk(s: Sys) {
    s.db.publicKey == None ==>
      && (forall w :: 0 <= w < |s.managers| ==> s.managers[w].authPublicKeyHex == None)
      && (forall i :: 0 <= i < |s.tasks| ==> !Filled(s.tasks[i]))
  }

  lemma PublicStep(s: Sys, e: Event)
    requires PublicOk(s)
    ensures PublicOk(Next(s, e)) && |Next(s, e).managers| == |s.managers|
  {}

  /** So once some manager holds a public key, one is stored, also in a database that started without. */
  lemma {:induction false} KnownIsStored(db: Db, n: nat, events: seq<Event>)
    ensures var s := Run(Start(db, n), events);
      && PublicOk(s) && |s.managers| == n
      && forall w: nat :: w < n && s.managers[w].authPublicKeyHex.Some? ==> s.db.publicKey.Some?
  {
    assert PublicOk(Start(db, n));
    if events != [] {
      hide Next, PublicOk;
      KnownIsStored(db, n, events[..|events| - 1]);
      PublicStep(Run(Start(db, n), events[..|events| - 1]), events[|events| - 1]);
    }
  }

  /** Both keys come from one mnemonic, so the unlock key decides the public one. */
  predicate Paired(pub: Key -> string, e: Event) {
    e.Calls? ==>
      match e.call
      case Initialize(Some((k, p))) => p == pub(k)
      case Setup(k, p) => p == pub(k)
      case _ => true
  }

  predicate PairedTask(pub: Key -> string, t: Task) {
    match t
    case InitLoading(_, Some((k, p))) => p == pub(k)
    case InitLoaded(_, Some((k, p)), _) => p == pub(k)
    case InitChecking(_, k, p, _) => p == pub(k)
    case PublicLoading(_, k, p) => p == pub(k)
    case PublicLoaded(_, k, p, _, _) => p == pub(k)
    case PublicWriting(_, k, p) => p == pub(k)
    case PublicWritten(_, k, p) => p == pub(k)
    case SetupDeriving(_, k, p) => p == pub(k)
    case SetupEnrolling(_, k, p) => p == pub(k)
    case SetupAnswered(_, k, p, _) => p == pub(k)
    case _ => true
  }

  /** The task takes it that this public key is stored. */
  predicate Trusts(t: Task, p: string) {
    match t
    case PublicLoaded(_, _, _, stored, _) => stored == Some(p)
    case PublicWritten(_, _, _) => true
    case SetupAnswered(_, _, _, enrolled) => enrolled
    case _ => false
  }

  /** The enrolled key's own public key is stored. */
  predicate Matches(db: Db, pub: Key -> string, k: Key) { Enrolled(db.canary, k) && db.publicKey == Some(pub(k)) }

  /** ... or nobody takes it to be. */
  predicate TrustOk(s: Sys, pub: Key -> string, k: Key) {
    Enrolled(s.db.canary, k) && !Matches(s.db, pub, k) ==>
      && (forall w :: 0 <= w < |s.managers| ==> s.managers[w].authPublicKeyHex != Some(pub(k)))
      && (forall i :: 0 <= i < |s.tasks| ==> !Trusts(s.tasks[i], pub(k)))
  }

  predicate PairsOk(s: Sys, pub: Key -> string) {
    forall i :: 0 <= i < |s.tasks| ==> PairedTask(pub, s.tasks[i])
  }

  lemma PairsStep(s: Sys, e: Event, pub: Key -> string)
    requires PairsOk(s, pub) && Paired(pub, e)
    ensures PairsOk(Next(s, e), pub)
  {
    if e.Advances? && e.task < |s.tasks| { assert PairedTask(pub, s.tasks[e.task]); }
  }

  /** What a task does to the database and learns from it, where the enrolled key is `k`. */
  lemma TrustTask(db: Db, m: Manager, t: Task, pub: Key -> string, k: Key)
    requires TaskOk(db.canary, t) && PairedTask(pub, t) && Enrolled(Written(db, t).canary, k)
    ensures Matches(db, pub, k) ==> Matches(Written(db, t), pub, k)
    ensures !Matches(Written(db, t), pub, k) && !Trusts(t, pub(k)) && m.authPublicKeyHex != Some(pub(k)) ==>
      !Trusts(Resumed(db, m, t), pub(k)) && Touched(m, t).authPublicKeyHex != Some(pub(k))
    ensures db.canary == None ==> Matches(Written(db, t), pub, k)
  {}

  lemma Canaries(db: Db, t: Task)
    ensures db.canary.Some? ==> Written(db, t).canary == db.canary
  {}

  lemma TrustAdvance(s: Sys, i: nat, pub: Key -> string, k: Key)
    requires TasksOk(s.db.canary, s.tasks) && PairsOk(s, pub) && TrustOk(s, pub, k)
    requires i < |s.tasks| && s.tasks[i].who < |s.managers|
    ensures TrustOk(Advanced(s, i), pub, k)
    ensures Matches(s.db, pub, k) ==> Matches(Advanced(s, i).db, pub, k)
  {
    hide Touched, Resumed, Trusts, Written;
    var t, s' := s.tasks[i], Advanced(s, i);
    assert TaskOk(s.db.canary, t) && PairedTask(pub, t);
    Canaries(s.db, t);
    if Enrolled(s'.db.canary, k) { TrustTask(s.db, s.managers[t.who], t, pub, k); }
  }

  lemma TrustStep(s: Sys, e: Event, pub: Key -> string, k: Key)
    requires TasksOk(s.db.canary, s.tasks) && PairsOk(s, pub) && TrustOk(s, pub, k)
    ensures TrustOk(Next(s, e), pub, k)
    ensures Matches(s.db, pub, k) ==> Matches(Next(s, e).db, pub, k)
  {
    hide Advanced, TasksOk, PairsOk;
    if e.Advances? && e.task < |s.tasks| && s.tasks[e.task].who < |s.managers| { TrustAdvance(s, e.task, pub, k); }
  }

  predicate AllPaired(pub: Key -> string, events: seq<Event>) {
    forall i :: 0 <= i < |events| ==> Paired(pub, events[i])
  }

  lemma {:induction false} TrustRun(s: Sys, events: seq<Event>, pub: Key -> string, k: Key)
    requires Inv(s) && PairsOk(s, pub) && TrustOk(s, pub, k) && AllPaired(pub, events)
    ensures PairsOk(Run(s, events), pub) && TrustOk(Run(s, events), pub, k)
    ensures Matches(s.db, pub, k) ==> Matches(Run(s, events).db, pub, k)
  {
    if events != [] {
      var n := |events| - 1;
      TrustRun(s, events[..n], pub, k);
      RunOk(s, events[..n]);
      PairsStep(Run(s, events[..n]), events[n], pub);
      assert TasksOk(Run(s, events[..n]).db.canary, Run(s, events[..n]).tasks);
      hide Next, Inv;
      TrustStep(Run(s, events[..n]), events[n], pub, k);
    }
  }

  /** The task is an `initialize` that has seen to the public key and unlocks next. */
  predicate BackfillDone(t: Task, k: Key) {
    match t
    case PublicLoaded(_, key, p, stored, _) => key == k && stored == Some(p)
    case PublicWritten(_, key, _) => key == k
    case _ => false
  }

  /**
  Whatever the database held to begin with: once an `initialize` with both keys gets to its unlock, the public key
  stored is the enrolled key's own, and stays so in every continuation. So is one a manager holds that is that key's.
  */
  lemma Backfilled(db: Db, n: nat, pub: Key -> string, events: seq<Event>, more: seq<Event>, k: Key)
    requires AllPaired(pub, events) && AllPaired(pub, more)
    ensures var s := Run(Start(db, n), events);
      && ((exists i :: 0 <= i < |s.tasks| && BackfillDone(s.tasks[i], k)) ==> Matches(s.db, pub, k))
      && (Enrolled(s.db.canary, k) && (exists m <- s.managers :: m.authPublicKeyHex == Some(pub(k))) ==>
            Matches(s.db, pub, k))
      && (Matches(s.db, pub, k) ==> Matches(Run(s, more).db, pub, k))
  {
    StartOk(db, n);
    RunOk(Start(db, n), events);
    TrustRun(Start(db, n), events, pub, k);
    var s := Run(Start(db, n), events);
    TrustRun(s, more, pub, k);
    hide Run;
    forall i | 0 <= i < |s.tasks| && BackfillDone(s.tasks[i], k) ensures Matches(s.db, pub, k) {
      assert TaskOk(s.db.canary, s.tasks[i]) && PairedTask(pub, s.tasks[i]) && Trusts(s.tasks[i], pub(k));
    }
  }

  // ----------------------------------------------------- calls that get through

  /** The event is about task `i`. */
  predicate Names(e: Event, i: nat) { (e.Advances? || e.Fails? || e.Throws?) && e.task == i }

  lemma TaskFrame(s: Sys, e: Event, i: nat)
    requires i < |s.tasks| && !Names(e, i)
    ensures i < |Next(s, e).tasks| && Next(s, e).tasks[i] == s.tasks[i]
  {}

  /** The key a call was given. */
  function Aims(t: Task): Option<Key> {
    match t
    case InitLoading(_, Some((k, _))) => Some(k)
    case InitLoaded(_, Some((k, _)), _) => Some(k)
    case InitChecking(_, k, _, _) => Some(k)
    case PublicLoading(_, k, _) => Some(k)
    case PublicLoaded(_, k, _, _, _) => Some(k)
    case PublicWriting(_, k, _) => Some(k)
    case PublicWritten(_, k, _) => Some(k)
    case SetupAnswered(_, k, _, _) => Some(k)
    case UnlockLoading(_, k) => Some(k)
    case UnlockLoaded(_, k, _) => Some(k)
    case UnlockChecking(_, k, _) => Some(k)
    case Unlocking(_, k) => Some(k)
    case _ => None
  }

  /** An `initialize` or `unlock` with the enrolled key, or a `setup` that won. */
  predicate Committed(canary: Option<Cipher>, t: Task) {
    match t
    case InitLoading(_, Some((k, _))) => Enrolled(canary, k)
    case InitLoaded(_, Some((k, _)), Some(c)) => Opens(c, k)
    case InitChecking(_, k, _, c) => Opens(c, k)
    case PublicLoading(_, _, _) => true
    case PublicLoaded(_, _, _, _, _) => true
    case PublicWriting(_, _, _) => true
    case PublicWritten(_, _, _) => true
    case SetupAnswered(_, _, _, enrolled) => enrolled
    case UnlockLoading(_, k) => Enrolled(canary, k)
    case UnlockLoaded(_, k, Some(c)) => Opens(c, k)
    case UnlockChecking(_, k, c) => Opens(c, k)
    case Unlocking(_, _) => true
    case _ => false
  }

  /** How many more of its awaits such a call can have before it. */
  function Rank(t: Task): nat {
    match t
    case InitLoading(_, _) => 8
    case InitLoaded(_, _, _) => 7
    case InitChecking(_, _, _, _) => 6
    case PublicLoading(_, _, _) => 5
    case PublicLoaded(_, _, _, _, _) => 4
    case PublicWriting(_, _, _) => 3
    case UnlockLoading(_, _) => 4
    case UnlockLoaded(_, _, _) => 3
    case Unlocking(_, _) => 1
    case _ => 2
  }

  /** Manager `w` is unlocked with this key. */
  predicate UnlockedWith(s: Sys, w: nat, k: Option<Key>) {
    && IsUnlocked(s, w) && k.Some?
    && s.managers[w].unlockKeyHex == k && s.managers[w].key == Some(Derive(k.value, ENCRYPTION))
  }

  lemma CommittedResumes(db: Db, m: Manager, t: Task)
    requires Committed(db.canary, t) && TaskOk(db.canary, t)
    ensures Aims(t).Some? && Enrolled(db.canary, Aims(t).value) && Written(db, t).canary == db.canary
    ensures var (m', t') := (Touched(m, t), Resumed(db, m, t));
      if t.Unlocking? then
        t' == Finished(t.who) && m'.state == Unlocked && m'.key == Some(Derive(t.key, ENCRYPTION))
      else
        && Committed(db.canary, t') && Aims(t') == Aims(t) && t'.who == t.who && Rank(t') < Rank(t)
        && (t'.Unlocking? ==> m'.unlockKeyHex == Aims(t) && m'.derivedKeys == map[] == m'.derivingKeys)
  {}

  /**
  One more await of a committed call passed: it is nearer its end, and the last one unlocks its manager with its key.
  The one before that has stored the key and emptied both caches.
  */
  lemma CommittedAdvances(s: Sys, i: nat)
    requires Inv(s) && i < |s.tasks| && Committed(s.db.canary, s.tasks[i])
    ensures var (t, s') := (s.tasks[i], Next(s, Advances(i)));
      && t.who < |s.managers| && i < |s'.tasks|
      && var t' := s'.tasks[i];
         if t.Unlocking? then t' == Finished(t.who) && UnlockedWith(s', t.who, Aims(t))
         else
           && Committed(s'.db.canary, t') && Aims(t') == Aims(t) && t'.who == t.who && Rank(t') < Rank(t)
           && (t'.Unlocking? ==>
                 && s'.managers[t.who].unlockKeyHex == Aims(t)
                 && s'.managers[t.who].derivedKeys == map[] == s'.managers[t.who].derivingKeys)
  {
    var t, s' := s.tasks[i], Next(s, Advances(i));
    assert Owned(s.managers, t) && TaskOk(s.db.canary, t);
    CommittedResumes(s.db, s.managers[t.who], t);
    NextOk(s, Advances(i));
    hide Touched, Resumed, Written;
    assert ManagerOk(s'.db.canary, s'.managers[t.who]);
  }

  /** Unless it fails, nothing else diverts it; a callback that throws does not keep it from unlocking. */
  lemma CommittedStep(s: Sys, e: Event, i: nat)
    requires Inv(s) && i < |s.tasks| && Committed(s.db.canary, s.tasks[i]) && e != Fails(i) && e != Advances(i)
    ensures var (t, s') := (s.tasks[i], Next(s, e));
      && i < |s'.tasks|
      && ((s'.tasks[i] == t && Committed(s'.db.canary, t)) ||
          (s'.tasks[i] == Finished(t.who) && UnlockedWith(s', t.who, Aims(t))))
  {
    var t, s' := s.tasks[i], Next(s, e);
    assert Owned(s.managers, t) && TaskOk(s.db.canary, t);
    NextOk(s, e);
    CommittedResumes(s.db, s.managers[t.who], t);
    if e.Throws? && e.task == i && CanThrow(s, i, e.at) {
      assert ManagerOk(s'.db.canary, s'.managers[t.who]);
    } else if !Names(e, i) {
      TaskFrame(s, e, i);
    }
    hide Touched, Resumed, Written, Advanced, Called, Failed;
  }

  function Advancing(events: seq<Event>, i: nat): nat {
    if events == [] then 0
    else Advancing(events[..|events| - 1], i) + if events[|events| - 1] == Advances(i) then 1 else 0
  }

  /** Where a committed call stands after some events: finished, having unlocked its manager, or that much nearer. */
  lemma {:induction false} CommittedRun(s: Sys, events: seq<Event>, i: nat) returns (done: bool, n: nat)
    requires Inv(s) && i < |s.tasks| && Committed(s.db.canary, s.tasks[i]) && Fails(i) !in events
    ensures n <= |events| && i < |Run(s, events[..n]).tasks|
    ensures var (t, s') := (s.tasks[i], Run(s, events[..n]));
      if done then s'.tasks[i] == Finished(t.who) && UnlockedWith(s', t.who, Aims(t))
      else
        && n == |events| && Committed(s'.db.canary, s'.tasks[i]) && Aims(s'.tasks[i]) == Aims(t)
        && s'.tasks[i].who == t.who && Rank(s'.tasks[i]) + Advancing(events, i) <= Rank(t)
  {
    if events == [] {
      done, n := false, 0;
    } else {
      var m := |events| - 1;
      var before := events[..m];
      assert Fails(i) !in before;
      done, n := CommittedRun(s, before, i);
      assert before[..n] == events[..n];
      if !done {
        assert before[..m] == before && events[..m + 1] == events;
        var u := Run(s, before);
        RunOk(s, before);
        hide Next, Committed;
        n := m + 1;
        if events[m] == Advances(i) { CommittedAdvances(u, i); } else { CommittedStep(u, events[m], i); }
        done := Next(u, events[m]).tasks[i].Finished?;
        NotFinished(u, i);
        if !done { NotFinished(Next(u, events[m]), i); }
      }
    }
  }

  lemma NotFinished(s: Sys, i: nat)
    requires i < |s.tasks|
    ensures Committed(s.db.canary, s.tasks[i]) ==> !s.tasks[i].Finished? && Rank(s.tasks[i]) > 0
  {}

  /**
  So an `initialize` or `unlock` with the enrolled key, or a `setup` that won, unlocks its manager with that key once
  its awaits have passed, whatever else happens in between, unless one of them fails.
  */
  lemma CommittedUnlocks(s: Sys, events: seq<Event>, i: nat) returns (n: nat)
    requires Inv(s) && i < |s.tasks| && Committed(s.db.canary, s.tasks[i]) && Fails(i) !in events
    requires Advancing(events, i) >= Rank(s.tasks[i])
    ensures n <= |events| && UnlockedWith(Run(s, events[..n]), s.tasks[i].who, Aims(s.tasks[i]))
  {
    var done;
    done, n := CommittedRun(s, events, i);
    if !done { NotFinished(Run(s, events[..n]), i); }
  }

  /** Which calls are committed from the start. */
  lemma CallCommits(s: Sys, w: nat, k: Key, p: string)
    requires w < |s.managers|
    ensures forall call :: call == Unlock(k) || call == Initialize(Some((k, p))) ==>
      var s' := Next(s, Calls(w, call));
      && |s'.tasks| == |s.tasks| + 1 && s'.tasks[..|s.tasks|] == s.tasks && s'.managers == s.managers && s'.db == s.db
      && var t := s'.tasks[|s.tasks|];
         t.who == w && Aims(t) == Some(k) && (Committed(s'.db.canary, t) <==> Enrolled(s.db.canary, k))
  {}

  /** An enrolment of an empty database wins: both rows are written, and the call is committed. */
  lemma EnrolmentWins(s: Sys, i: nat)
    requires i < |s.tasks| && s.tasks[i].SetupEnrolling? && s.tasks[i].who < |s.managers| && s.db.canary == None
    ensures var (t, s') := (s.tasks[i], Next(s, Advances(i)));
      && Enrolled(s'.db.canary, t.key) && s'.db.publicKey == Some(t.public) && s'.wins == s.wins + [t.key]
      && s'.managers == s.managers
      && s'.tasks == s.tasks[i := SetupAnswered(t.who, t.key, t.public, true)] && Committed(s'.db.canary, s'.tasks[i])
  {}

  /** `initialize` about to say locked or unset: no key was given, or the one given does not open the canary. */
  predicate Locks(t: Task) {
    match t
    case InitLoaded(_, given, _) => given == None
    case InitChecking(_, k, _, c) => !Opens(c, k)
    case _ => false
  }

  /**
  Any other step of a call that is not committed writes nothing and gives its manager no key: all it can do is say
  locked, where a canary was found, or unset, where none was.
  */
  lemma RefusedChangesNothing(s: Sys, i: nat)
    requires i < |s.tasks| && s.tasks[i].who < |s.managers| && !s.tasks[i].KeyAwaiting?
    requires !Committed(s.db.canary, s.tasks[i]) && !(s.tasks[i].SetupEnrolling? && s.db.canary == None)
    ensures var (t, s') := (s.tasks[i], Next(s, Advances(i)));
      var m := s.managers[t.who];
      && s'.db == s.db && s'.wins == s.wins && s'.answers == s.answers && !Committed(s'.db.canary, s'.tasks[i])
      && s'.managers == s.managers[t.who := m.(state := if !Locks(t) then m.state
                                                        else if t.InitLoaded? && t.canary == None then Unset
                                                        else Locked)]
  {}

  /** The advances of one call and nothing else. */
  function AdvancedBy(s: Sys, i: nat, n: nat): Sys { if n == 0 then s else Next(AdvancedBy(s, i, n - 1), Advances(i)) }

  lemma SetupSteps(s: Sys, i: nat)
    requires i < |s.tasks| && s.tasks[i].SetupDeriving? && s.tasks[i].who < |s.managers| && s.db.canary == None
    ensures var (t, s') := (s.tasks[i], AdvancedBy(s, i, 4));
      && UnlockedWith(s', t.who, Some(t.key)) && Enrolled(s'.db.canary, t.key) && s'.db.publicKey == Some(t.public)
      && s'.managers[t.who].authPublicKeyHex == Some(t.public) && s'.wins == s.wins + [t.key]
      && s'.tasks == s.tasks[i := Finished(t.who)]
  {
    var t := s.tasks[i];
    var w, k, p := t.who, t.key, t.public;
    var s1 := AdvancedBy(s, i, 1);
    assert s1 == Next(s, Advances(i)) by { assert AdvancedBy(s, i, 0) == s; }
    assert s1 == s.(tasks := s.tasks[i := SetupEnrolling(w, k, p)]);
    EnrolmentWins(s1, i);
    var s2 := AdvancedBy(s, i, 2);
    assert s2 == Next(s1, Advances(i));
    var s3 := AdvancedBy(s, i, 3);
    assert s3.tasks == s.tasks[i := Unlocking(w, k)] && s3.db == s2.db && s3.wins == s2.wins;
    assert s3.managers[w].unlockKeyHex == Some(k) && s3.managers[w].authPublicKeyHex == Some(p);
    assert AdvancedBy(s, i, 4) == Next(s3, Advances(i));
  }

  /** Left to itself, a `setup` of an unset manager over an empty database enrols its keys and unlocks with them. */
  lemma SetupUnlocks(s: Sys, w: nat, k: Key, p: string)
    requires w < |s.managers| && s.managers[w].state == Unset && s.db.canary == None
    ensures var s' := AdvancedBy(Next(s, Calls(w, Setup(k, p))), |s.tasks|, 4);
      && UnlockedWith(s', w, Some(k)) && Enrolled(s'.db.canary, k) && s'.db.publicKey == Some(p)
      && s'.wins == s.wins + [k]
  {
    hide AdvancedBy;
    SetupSteps(Next(s, Calls(w, Setup(k, p))), |s.tasks|);
  }

  /** Of any other manager it is refused at once. */
  lemma SetupOnlyUnset(s: Sys, w: nat, k: Key, p: string)
    requires w < |s.managers| && s.managers[w].state != Unset
    ensures Next(s, Calls(w, Setup(k, p))) == s.(tasks := s.tasks + [Finished(w)])
  {}

  /**
  The public key is remembered as it was read, written or enrolled, and nothing else changes what is remembered; once
  remembered it is not read again.
  */
  lemma PublicKeyRemembered(db: Db, m: Manager, t: Task)
    ensures Touched(m, t).authPublicKeyHex
         == if t.PublicLoaded? && t.queried then t.stored
            else if t.PublicWritten? || (t.SetupAnswered? && t.enrolled) then Some(t.public)
            else m.authPublicKeyHex
    ensures t.InitChecking? && Opens(t.sealed, t.key) ==>
      Resumed(db, m, t) == if m.authPublicKeyHex == None then PublicLoading(t.who, t.key, t.public)
                           else PublicLoaded(t.who, t.key, t.public, m.authPublicKeyHex, false)
  {}

  /** So does an `initialize` with both keys. */
  lemma InitializeEnrols(s: Sys, w: nat, k: Key, p: string)
    requires w < |s.managers| && s.managers[w].state == Unset && s.db.canary == None
    ensures var s' := AdvancedBy(AdvancedBy(Next(s, Calls(w, Initialize(Some((k, p))))), |s.tasks|, 2), |s.tasks|, 4);
      && UnlockedWith(s', w, Some(k)) && Enrolled(s'.db.canary, k) && s'.db.publicKey == Some(p)
      && s'.wins == s.wins + [k]
  {
    var i, s0 := |s.tasks|, Next(s, Calls(w, Initialize(Some((k, p)))));
    assert AdvancedBy(s0, i, 0) == s0 && s0 == s.(tasks := s.tasks + [InitLoading(w, Some((k, p)))]);
    var s1 := AdvancedBy(s0, i, 1);
    assert s1 == s.(tasks := s.tasks + [InitLoaded(w, Some((k, p)), None)]);
    var s2 := AdvancedBy(s0, i, 2);
    assert s2 == Next(s1, Advances(i));
    assert s2 == s.(tasks := s.tasks + [SetupDeriving(w, k, p)]);
    hide AdvancedBy;
    SetupSteps(s2, i);
  }

  /** One without keys says whether a canary is stored, and changes nothing else. */
  lemma InitializeReports(s: Sys, w: nat)
    requires w < |s.managers|
    ensures var s' := AdvancedBy(Next(s, Calls(w, Initialize(None))), |s.tasks|, 2);
      s' == s.(tasks := s.tasks + [Finished(w)],
               managers := s.managers[w := s.managers[w].(state := if s.db.canary.Some? then Locked else Unset)])
  {
    var i, s0 := |s.tasks|, Next(s, Calls(w, Initialize(None)));
    assert AdvancedBy(s0, i, 0) == s0;
    var s1 := AdvancedBy(s0, i, 1);
    assert s1 == s.(tasks := s.tasks + [InitLoaded(w, None, s.db.canary)]);
    assert AdvancedBy(s0, i, 2) == Next(s1, Advances(i));
  }

  // --------------------------------------------------------------- derived keys

  lemma {:induction false} FrameRun(s: Sys, events: seq<Event>, i: nat)
    requires i < |s.tasks| && forall e <- events :: !Names(e, i)
    ensures i < |Run(s, events).tasks| && Run(s, events).tasks[i] == s.tasks[i]
  {
    if events != [] {
      hide Next;
      FrameRun(s, events[..|events| - 1], i);
      TaskFrame(Run(s, events[..|events| - 1]), events[|events| - 1], i);
    }
  }

  /**
  A purpose asked for is answered at once when its key is cached, refused exactly when there is neither a cached key nor
  an unlock key, and otherwise answered, and cached, as soon as its derivation settles, whatever happens before. A
  derivation in flight is shared.
  */
  lemma KeyServed(s: Sys, w: nat, purpose: string, gap: seq<Event>)
    requires Inv(s) && w < |s.managers| && forall e <- gap :: !Names(e, |s.tasks|)
    ensures var (m, s1) := (s.managers[w], Next(s, Calls(w, GetDerivedKey(purpose))));
      if purpose in m.derivedKeys then
        s1 == s.(answers := s.answers + [Answer(w, purpose, m.derivedKeys[purpose])])
      else if m.unlockKeyHex == None then s1 == s
      else
        var (s2, s3) := (Run(s1, gap), Next(Run(s1, gap), Advances(|s.tasks|)));
        && (purpose in m.derivingKeys ==> s1.managers == s.managers)
        && purpose in s1.managers[w].derivingKeys
        && s1.managers[w].derivingKeys[purpose] == Derive(m.unlockKeyHex.value, purpose)
        && s3.answers == s2.answers + [Answer(w, purpose, Derive(m.unlockKeyHex.value, purpose))]
        && w < |s3.managers| && purpose in s3.managers[w].derivedKeys
        && s3.managers[w].derivedKeys[purpose] == Derive(m.unlockKeyHex.value, purpose)
  {
    var m, s1 := s.managers[w], Next(s, Calls(w, GetDerivedKey(purpose)));
    assert ManagerOk(s.db.canary, m);
    if purpose !in m.derivedKeys && m.unlockKeyHex.Some? {
      assert purpose in m.derivingKeys ==> Right(s.db.canary, purpose, m.derivingKeys[purpose]);
      assert s1.tasks[|s.tasks|] == KeyAwaiting(w, purpose, Derive(m.unlockKeyHex.value, purpose));
      NextOk(s, Calls(w, GetDerivedKey(purpose)));
      RunOk(s1, gap);
      FrameRun(s1, gap, |s.tasks|);
      hide Run, Called;
    }
  }

  /** The `finally` of a derivation forgets that purpose's promise and no other. */
  lemma SettleForgets(s: Sys, w: nat, purpose: string, other: string)
    requires w < |s.managers|
    ensures var (m, m') := (s.managers[w], Next(s, Settles(w, purpose)).managers[w]);
      && purpose !in m'.derivingKeys && m' == m.(derivingKeys := m'.derivingKeys)
      && (other != purpose ==>
            && (other in m'.derivingKeys <==> other in m.derivingKeys)
            && (other in m.derivingKeys ==> m'.derivingKeys[other] == m.derivingKeys[other]))
  {}

  /** The callbacks handed to `onUnlock` of manager `w`. */
  function Registrations(events: seq<Event>, w: nat): seq<nat> {
    if events == [] then [] else
      var last := events[|events| - 1];
      Registrations(events[..|events| - 1], w)
      + if last.Calls? && last.who == w && last.call.OnUnlock? then [last.call.callback] else []
  }

  lemma RegistrationStep(s: Sys, e: Event, w: nat)
    requires w < |s.managers|
    ensures w < |Next(s, e).managers|
    ensures Next(s, e).managers[w].unlockCallbacks == s.managers[w].unlockCallbacks
      + if e.Calls? && e.who == w && e.call.OnUnlock? then [e.call.callback] else []
  {
    assert s.managers[w].unlockCallbacks + [] == s.managers[w].unlockCallbacks;
  }

  /** Every one of them is registered, in order, and none is ever dropped. */
  lemma {:induction false} AllRegistered(db: Db, n: nat, events: seq<Event>, w: nat)
    requires w < n
    ensures w < |Run(Start(db, n), events).managers|
    ensures Run(Start(db, n), events).managers[w].unlockCallbacks == Registrations(events, w)
  {
    if events != [] {
      hide Next;
      AllRegistered(db, n, events[..|events| - 1], w);
      RegistrationStep(Run(Start(db, n), events[..|events| - 1]), events[|events| - 1], w);
    }
  }

  /** An event of one manager leaves the others as they are. */
  lemma OthersUntouched(s: Sys, e: Event, w: nat)
    requires w < |s.managers|
    requires match e
      case Calls(v, _) => v != w
      case Settles(v, _) => v != w
      case Advances(i) => i < |s.tasks| ==> s.tasks[i].who != w
      case Fails(i) => i < |s.tasks| ==> s.tasks[i].who != w
      case Throws(i, _) => i < |s.tasks| ==> s.tasks[i].who != w
    ensures w < |Next(s, e).managers| && Next(s, e).managers[w] == s.managers[w]
  {}

  // ------------------------------------------------- staying unlocked, callbacks

  /**
  The event lets such an `initialize` of manager `w` decide while `w` is unlocked, or fails its check of the canary.
  */
  predicate Relocks(s: Sys, e: Event, w: nat) {
    IsUnlocked(s, w) && (e.Advances? || e.Fails?) && e.task < |s.tasks| && s.tasks[e.task].who == w
    && if e.Advances? then Locks(s.tasks[e.task]) else s.tasks[e.task].InitChecking?
  }

  /** That is the one way out of the unlocked state. */
  lemma RelocksExactly(s: Sys, e: Event, w: nat)
    ensures Relocks(s, e, w) <==> IsUnlocked(s, w) && !IsUnlocked(Next(s, e), w)
  {}

  /** Each callback has been called exactly once while unlocked, in the order given, and not at all otherwise. */
  predicate CallbacksOk(m: Manager) {
    m.called == if m.state == Unlocked then UpTo(|m.unlockCallbacks|) else []
  }

  /** Some callback was called and the manager is not unlocked, or not each was called once in order. */
  predicate CallbacksBroken(m: Manager) {
    && m.unlockCallbacks != [] && m.called != []
    && (m.state == Unlocked ==> m.called != UpTo(|m.unlockCallbacks|))
  }

  /** A callback of manager `w` throws before its last one's turn. */
  predicate CutsShort(s: Sys, e: Event, w: nat) {
    e.Throws? && CanThrow(s, e.task, e.at) && s.tasks[e.task].who == w
    && e.at + 1 < |s.managers[w].unlockCallbacks|
  }

  /** The event relocks a manager that has callbacks, or one of its callbacks throws before the last one's turn. */
  predicate Breaks(s: Sys, e: Event, w: nat) {
    w < |s.managers| && ((Relocks(s, e, w) && s.managers[w].unlockCallbacks != []) || CutsShort(s, e, w))
  }

  lemma LocksCallbacks(m: Manager, state: KeyState)
    requires state != Unlocked
    ensures var m' := m.(state := state);
      && (CallbacksOk(m) && (m.state != Unlocked || m.unlockCallbacks == []) ==> CallbacksOk(m'))
      && (CallbacksOk(m) && m.state == Unlocked && m.unlockCallbacks != [] ==> CallbacksBroken(m'))
      && (CallbacksBroken(m) ==> CallbacksBroken(m'))
  {}

  lemma FinishCallbacks(m: Manager, k: Key, count: nat)
    requires m.unlockCallbacks != [] ==> count > 0
    ensures var (m', whole) := (FinishUnlock(m, k, count), m.state == Unlocked || count >= |m.unlockCallbacks|);
      && (CallbacksOk(m) && whole ==> CallbacksOk(m'))
      && (CallbacksOk(m) && !whole ==> CallbacksBroken(m'))
      && (CallbacksBroken(m) ==> CallbacksBroken(m'))
  {
    var n := Min(count, |m.unlockCallbacks|);
    assert [] + UpTo(n) == UpTo(n);
    if CallbacksBroken(m) && m.state != Unlocked {
      assert (m.called + UpTo(n))[|m.called|] == 0;
    }
  }

  lemma RegisterCallbacks(m: Manager, callback: nat)
    ensures CallbacksOk(m) ==> CallbacksOk(Register(m, callback))
    ensures CallbacksBroken(m) ==> CallbacksBroken(Register(m, callback))
  {
    var n := |m.unlockCallbacks|;
    assert UpTo(n + 1) == UpTo(n) + [n];
    if m.called + [n] == UpTo(n + 1) {
      assert m.called == (m.called + [n])[..|m.called|] && UpTo(n) == UpTo(n + 1)[..n];
    }
  }

  lemma ResumedCallbacks(m: Manager, t: Task)
    ensures var breaks := m.state == Unlocked && Locks(t) && m.unlockCallbacks != [];
      && (CallbacksOk(m) && !breaks ==> CallbacksOk(Touched(m, t)))
      && (CallbacksOk(m) && breaks ==> CallbacksBroken(Touched(m, t)))
      && (CallbacksBroken(m) ==> CallbacksBroken(Touched(m, t)))
  {
    LocksCallbacks(m, Locked);
    LocksCallbacks(m, Unset);
    if t.Unlocking? { FinishCallbacks(m, t.key, |m.unlockCallbacks|); }
    hide FinishUnlock, UpTo;
  }

  /**
  A step breaks that promise exactly when it relocks a manager that has callbacks or a callback throws before the last
  one's turn, and then nothing repairs it.
  */
  lemma CallbacksStep(s: Sys, e: Event, w: nat)
    requires w < |s.managers|
    ensures w < |Next(s, e).managers|
    ensures CallbacksOk(s.managers[w]) && !Breaks(s, e, w) ==> CallbacksOk(Next(s, e).managers[w])
    ensures CallbacksOk(s.managers[w]) && Breaks(s, e, w) ==> CallbacksBroken(Next(s, e).managers[w])
    ensures CallbacksBroken(s.managers[w]) ==> CallbacksBroken(Next(s, e).managers[w])
  {
    hide Touched, Resumed, Written, Locks, FinishUnlock, Register, UpTo;
    var m := s.managers[w];
    match e
    case Advances(i) => if i < |s.tasks| { ResumedCallbacks(m, s.tasks[i]); }
    case Fails(i) => LocksCallbacks(m, Locked);
    case Throws(i, at) => if CanThrow(s, i, at) { FinishCallbacks(m, s.tasks[i].key, at + 1); }
    case Calls(_, OnUnlock(callback)) => RegisterCallbacks(m, callback);
    case _ =>
  }

  /** No event of the run breaks the promise, judged in the state it comes in. */
  predicate NeverBreaks(s: Sys, events: seq<Event>, w: nat) {
    events == [] ||
    var (before, last) := (events[..|events| - 1], events[|events| - 1]);
    NeverBreaks(s, before, w) && !Breaks(Run(s, before), last, w)
  }

  /** No callback throws before the last one's turn. */
  predicate NeverCutShort(s: Sys, events: seq<Event>, w: nat) {
    events == [] ||
    var (before, last) := (events[..|events| - 1], events[|events| - 1]);
    NeverCutShort(s, before, w) && !CutsShort(Run(s, before), last, w)
  }

  /**
  Over every run: each callback has been called exactly once, in order, if the manager is unlocked, and never
  otherwise, if and only if no `initialize` decided against the manager while it was unlocked and had callbacks, and no
  callback threw before the last one's turn.
  */
  lemma {:induction false} CallbacksRunOnce(s: Sys, events: seq<Event>, w: nat)
    requires w < |s.managers| && CallbacksOk(s.managers[w])
    ensures w < |Run(s, events).managers|
    ensures CallbacksOk(Run(s, events).managers[w]) <==> NeverBreaks(s, events, w)
    ensures CallbacksBroken(Run(s, events).managers[w]) <==> !NeverBreaks(s, events, w)
  {
    if events != [] {
      var n := |events| - 1;
      CallbacksRunOnce(s, events[..n], w);
      CallbacksStep(Run(s, events[..n]), events[n], w);
      hide Next, Breaks;
    }
  }

  predicate Booting(t: Task, w: nat) { t.who == w && (t.InitLoading? || t.InitLoaded? || t.InitChecking?) }

  predicate Booted(s: Sys, w: nat) { forall i :: 0 <= i < |s.tasks| ==> !Booting(s.tasks[i], w) }

  predicate NoInitialize(events: seq<Event>, w: nat) {
    forall i :: 0 <= i < |events| ==> !(events[i].Calls? && events[i].who == w && events[i].call.Initialize?)
  }

  lemma BootedStep(s: Sys, e: Event, w: nat)
    requires Booted(s, w) && !(e.Calls? && e.who == w && e.call.Initialize?)
    ensures Booted(Next(s, e), w)
  {}

  lemma {:induction false} BootedRun(s: Sys, events: seq<Event>, w: nat)
    requires Booted(s, w) && NoInitialize(events, w)
    ensures Booted(Run(s, events), w)
  {
    if events != [] {
      var n := |events| - 1;
      assert NoInitialize(events[..n], w);
      BootedRun(s, events[..n], w);
      BootedStep(Run(s, events[..n]), events[n], w);
    }
  }

  /**
  Once `initialize` has run, no step leaves the unlocked state, so only a callback that throws can break the callbacks'
  promise, and once unlocked nothing can.
  */
  lemma {:induction false} StaysUnlocked(s: Sys, events: seq<Event>, w: nat)
    requires Booted(s, w) && NoInitialize(events, w)
    ensures IsUnlocked(s, w) ==> IsUnlocked(Run(s, events), w) && NeverBreaks(s, events, w)
    ensures NeverBreaks(s, events, w) <==> NeverCutShort(s, events, w)
    decreases |events|
  {
    if events != [] {
      var n := |events| - 1;
      assert NoInitialize(events[..n], w);
      StaysUnlocked(s, events[..n], w);
      BootedRun(s, events[..n], w);
      RelocksExactly(Run(s, events[..n]), events[n], w);
      hide Next;
    }
  }

  /** A run one event longer. */
  lemma Extend(s0: Sys, events: seq<Event>, s: Sys, e: Event) returns (more: seq<Event>, s': Sys)
    requires Run(s0, events) == s
    ensures Run(s0, more) == s' == Next(s, e)
  {
    more, s' := events + [e], Next(s, e);
    assert more[..|events|] == events;
  }

  lemma StepsOfUnlock(db: Db, m: Manager, k: Key)
    requires Enrolled(db.canary, k)
    ensures Resumed(db, m, UnlockLoading(0, k)) == UnlockLoaded(0, k, db.canary)
    ensures Resumed(db, m, UnlockLoaded(0, k, db.canary)) == UnlockChecking(0, k, db.canary.value)
    ensures Resumed(db, m, UnlockChecking(0, k, db.canary.value)) == Unlocking(0, k)
  {}

  /** An unlock with the right key, up to its last await. */
  lemma UnlockBegins(s0: Sys, events: seq<Event>, s: Sys, i: nat, k: Key) returns (more: seq<Event>, s': Sys)
    requires Run(s0, events) == s
    requires i < |s.tasks| && s.tasks[i] == UnlockLoading(0, k) && |s.managers| == 1 && Enrolled(s.db.canary, k)
    ensures Run(s0, more) == s' && s'.db == s.db && s'.tasks == s.tasks[i := Unlocking(0, k)]
    ensures s'.managers == [BeginUnlock(s.managers[0], k)]
  {
    hide Run, BeginUnlock, FinishUnlock;
    var m := s.managers[0];
    StepsOfUnlock(s.db, m, k);
    more, s' := Extend(s0, events, s, Advances(i));
    assert s'.db == s.db && s'.managers == [m] && s'.tasks == s.tasks[i := UnlockLoaded(0, k, s.db.canary)];
    more, s' := Extend(s0, more, s', Advances(i));
    assert s'.db == s.db && s'.managers == [m] && s'.tasks == s.tasks[i := UnlockChecking(0, k, s.db.canary.value)];
    more, s' := Extend(s0, more, s', Advances(i));
  }

  /** ... and left to run through. */
  lemma UnlockRuns(s0: Sys, events: seq<Event>, s: Sys, i: nat, k: Key) returns (more: seq<Event>, s': Sys)
    requires Run(s0, events) == s
    requires i < |s.tasks| && s.tasks[i] == UnlockLoading(0, k) && |s.managers| == 1 && Enrolled(s.db.canary, k)
    ensures Run(s0, more) == s' && s'.db == s.db && s'.tasks == s.tasks[i := Finished(0)]
    ensures s'.managers == [FinishUnlock(BeginUnlock(s.managers[0], k), k, |s.managers[0].unlockCallbacks|)]
  {
    more, s' := UnlockBegins(s0, events, s, i, k);
    hide Run, FinishUnlock;
    more, s' := Extend(s0, more, s', Advances(i));
  }

  function EnrolledStart(k: Key, p: string): Sys {
    Start(Db(Some(Sealed(CANARY_PLAINTEXT, Derive(k, CANARY_PURPOSE))), Some(p)), 1)
  }

  lemma InitializeBegins(k: Key, p: string) returns (events: seq<Event>, s: Sys)
    ensures Run(EnrolledStart(k, p), events) == s && s.db == EnrolledStart(k, p).db
    ensures s.tasks == [InitLoaded(0, None, s.db.canary), UnlockLoading(0, k)]
    ensures s.managers == [FRESH.(unlockCallbacks := [7])]
  {
    var s0 := EnrolledStart(k, p);
    events, s := [], s0;
    assert s.managers == [FRESH] && s.tasks == [] && Run(s0, events) == s;
    hide Run, Touched, Resumed;
    events, s := Extend(s0, events, s, Calls(0, OnUnlock(7)));
    assert FRESH.unlockCallbacks + [7] == [7];
    assert s.managers == [FRESH.(unlockCallbacks := [7])] && s.tasks == [] && s.db == s0.db;
    events, s := Extend(s0, events, s, Calls(0, Initialize(None)));
    FirstLoad(s0.db, s.managers[0]);
    events, s := Extend(s0, events, s, Advances(0));
    assert s.tasks == [InitLoaded(0, None, s0.db.canary)];
    events, s := Extend(s0, events, s, Calls(0, Unlock(k)));
  }

  lemma FirstLoad(db: Db, m: Manager)
    ensures Resumed(db, m, InitLoading(0, None)) == InitLoaded(0, None, db.canary)
    ensures Touched(m, InitLoading(0, None)) == m
  {}

  /**
  Without that condition it fails: an `initialize` that loaded the canary before an unlock, and decides
  after it, locks the manager again, and the next unlock runs the same callback a second time.
  */
  lemma LateInitialize(k: Key, p: string) returns (events: seq<Event>)
    ensures var s := Run(EnrolledStart(k, p), events);
      |s.managers| == 1 && s.managers[0].unlockCallbacks == [7] && s.managers[0].called == [0, 0]
  {
    var s0 := EnrolledStart(k, p);
    var s;
    assert UpTo(1) == [0];
    hide Run, UpTo;
    events, s := Relocked(k, p);
    events, s := Extend(s0, events, s, Calls(0, Unlock(k)));
    assert s.tasks == [Finished(0), Finished(0), UnlockLoading(0, k)];
    hide Next;
    events, s := UnlockRuns(s0, events, s, 2, k);
    assert [0] + [0] == [0, 0];
  }

  lemma Relocked(k: Key, p: string) returns (events: seq<Event>, s: Sys)
    ensures Run(EnrolledStart(k, p), events) == s && s.db == EnrolledStart(k, p).db
    ensures s.tasks == [Finished(0), Finished(0)] && |s.managers| == 1 && s.managers[0].state == Locked
    ensures s.managers[0].unlockCallbacks == [7] && s.managers[0].called == [0]
  {
    var s0 := EnrolledStart(k, p);
    assert UpTo(1) == [0] && [] + [0] == [0];
    hide Run, UpTo;
    events, s := InitializeBegins(k, p);
    events, s := UnlockRuns(s0, events, s, 1, k);
    assert s.managers[0].called == [0] && s.tasks == [InitLoaded(0, None, s.db.canary), Finished(0)];
    events, s := Extend(s0, events, s, Advances(0));
    assert s.managers[0].called == [0] && s.managers[0].state == Locked && s.tasks == [Finished(0), Finished(0)];
  }

  /**
  It fails in another way: of two callbacks the first throws as the manager unlocks. The second has not been called
  then, and no continuation puts that right.
  */
  lemma ThrowingCallback(k: Key, p: string, more: seq<Event>) returns (events: seq<Event>)
    ensures var s := Run(EnrolledStart(k, p), events);
      && IsUnlocked(s, 0) && s.managers[0].unlockCallbacks == [7, 8] && s.managers[0].called == [0]
      && 0 < |Run(s, more).managers| && CallbacksBroken(Run(s, more).managers[0])
  {
    var s;
    events, s := UnlockThrows(k, p);
    assert UpTo(2)[1] == 1;
    assert CallbacksBroken(s.managers[0]);
    BrokenStays(s, more, 0);
  }

  lemma UnlockThrows(k: Key, p: string) returns (events: seq<Event>, s: Sys)
    ensures s == Run(EnrolledStart(k, p), events) && IsUnlocked(s, 0)
    ensures s.managers[0].unlockCallbacks == [7, 8] && s.managers[0].called == [0]
  {
    var s0 := EnrolledStart(k, p);
    assert UpTo(1) == [0] && [] + [0] == [0];
    hide Run, UpTo;
    events, s := TwoRegister(k, p);
    events, s := UnlockBegins(s0, events, s, 0, k);
    hide Touched, Resumed, Written;
    events, s := Extend(s0, events, s, Throws(0, 0));
  }

  lemma TwoRegister(k: Key, p: string) returns (events: seq<Event>, s: Sys)
    ensures Run(EnrolledStart(k, p), events) == s && s.db == EnrolledStart(k, p).db
    ensures s.tasks == [UnlockLoading(0, k)] && s.managers == [FRESH.(unlockCallbacks := [7, 8])]
  {
    var s0 := EnrolledStart(k, p);
    events, s := [], s0;
    assert s.managers == [FRESH] && s.tasks == [] && Run(s0, events) == s;
    hide Run, Touched, Resumed, Written, Failed, Threw, Ask, Settle;
    events, s := Extend(s0, events, s, Calls(0, OnUnlock(7)));
    assert FRESH.unlockCallbacks + [7] == [7];
    assert s.managers == [FRESH.(unlockCallbacks := [7])] && s.tasks == [] && s.db == s0.db;
    events, s := Extend(s0, events, s, Calls(0, OnUnlock(8)));
    assert [7] + [8] == [7, 8];
    assert s.managers == [FRESH.(unlockCallbacks := [7, 8])] && s.tasks == [] && s.db == s0.db;
    events, s := Extend(s0, events, s, Calls(0, Unlock(k)));
  }

  lemma {:induction false} BrokenStays(s: Sys, events: seq<Event>, w: nat)
    requires w < |s.managers| && CallbacksBroken(s.managers[w])
    ensures w < |Run(s, events).managers| && CallbacksBroken(Run(s, events).managers[w])
  {
    if events != [] {
      BrokenStays(s, events[..|events| - 1], w);
      CallbacksStep(Run(s, events[..|events| - 1]), events[|events| - 1], w);
      hide Next;
    }
  }
}

/** One manager as the class it is; every method is one synchronous piece of the protocol. */
module MasterKeyClass {
  import opened Prelude
  import opened MasterKey

  class MasterKeyManager {
    var key: Option<Derived>
    var derivedKeys: map<string, Derived>
    var derivingKeys: map<string, Derived>
    var unlockKeyHex: Option<Key>
    var authPublicKeyHex: Option<string>
    var state: KeyState
    var unlockCallbacks: seq<nat>
    var called: seq<nat>

    ghost function View(): Manager
      reads this
    {
      Manager(key, derivedKeys, derivingKeys, unlockKeyHex, authPublicKeyHex, state, unlockCallbacks, called)
    }

    constructor ()
      ensures View() == FRESH
    {
      key, derivedKeys, derivingKeys := None, map[], map[];
      unlockKeyHex, authPublicKeyHex, state := None, None, Unset;
      unlockCallbacks, called := [], [];
    }

    method BeginSetUnlocked(k: Key)
      modifies this
      ensures View() == BeginUnlock(old(View()), k)
    {
      unlockKeyHex := Some(k);
      derivedKeys := map[];
      derivingKeys := map[];
    }

    /** The callbacks are called in turn; one that throws ends the method there. */
    method FinishSetUnlocked(k: Key, throws: Option<nat>)
      modifies this
      ensures View() == FinishUnlock(old(View()), k, if throws.Some? then throws.value + 1 else |old(unlockCallbacks)|)
    {
      key := Some(Derive(k, ENCRYPTION));
      var wasLocked := state != Unlocked;
      state := Unlocked;
      if wasLocked {
        var i := 0;
        while i < |unlockCallbacks|
          modifies this`called
          invariant 0 <= i <= |unlockCallbacks| && (throws.Some? ==> i <= throws.value)
          invariant called == old(called) + UpTo(i)
        {
          called := called + [i];
          assert UpTo(i + 1) == UpTo(i) + [i];
          if throws == Some(i) { return; }
          i := i + 1;
        }
      }
    }

    method OnUnlocked(callback: nat)
      modifies this
      ensures View() == Register(old(View()), callback)
    {
      unlockCallbacks := unlockCallbacks + [callback];
      if state == Unlocked { called := called + [|unlockCallbacks| - 1]; }
    }

    method BeginGetDerivedKey(purpose: string) returns (asked: Asked)
      modifies this
      ensures (View(), asked) == Ask(old(View()), purpose)
    {
      if purpose in derivedKeys { return Cached(derivedKeys[purpose]); }
      if unlockKeyHex == None { return Refused; }
      if purpose !in derivingKeys {
        derivingKeys := derivingKeys[purpose := Derive(unlockKeyHex.value, purpose)];
      }
      asked := Awaiting(derivingKeys[purpose]);
    }

    method SettleDerivation(purpose: string)
      modifies this
      ensures View() == Settle(old(View()), purpose)
    {
      derivingKeys := derivingKeys - {purpose};
    }

    method BeginSettingUp(who: nat, k: Key, p: string) returns (t: Task)
      ensures t == BeginSetup(View(), who, k, p)
    {
      if state != Unset { return Finished(who); }
      t := SetupDeriving(who, k, p);
    }

    /** Any task of this manager resumed: the continuations of `initialize`, `setup`, `unlock` and the rest. */
    method Resume(db: Db, t: Task) returns (t': Task)
      modifies this
      ensures View() == Touched(old(View()), t) && t' == Resumed(db, old(View()), t)
    {
      t' := Finished(t.who);
      match t
      case InitLoading(w, given) => t' := InitLoaded(w, given, db.canary);
      case InitLoaded(w, Some((k, p)), Some(c)) => t' := InitChecking(w, k, p, c);
      case InitLoaded(w, Some((k, p)), None) => t' := BeginSettingUp(w, k, p);
      case InitLoaded(_, None, Some(_)) => state := Locked;
      case InitLoaded(_, None, None) => state := Unset;
      case InitChecking(w, k, p, c) =>
        if !Opens(c, k) { state := Locked; }
        else if authPublicKeyHex.Some? { t' := PublicLoaded(w, k, p, authPublicKeyHex, false); }
        else { t' := PublicLoading(w, k, p); }
      case PublicLoading(w, k, p) => t' := PublicLoaded(w, k, p, db.publicKey, true);
      case PublicLoaded(w, k, p, stored, queried) =>
        if queried { authPublicKeyHex := stored; }
        if stored == Some(p) {
          BeginSetUnlocked(k);
          t' := Unlocking(w, k);
        } else {
          t' := PublicWriting(w, k, p);
        }
      case PublicWriting(w, k, p) => t' := PublicWritten(w, k, p);
      case PublicWritten(w, k, p) =>
        authPublicKeyHex := Some(p);
        BeginSetUnlocked(k);
        t' := Unlocking(w, k);
      case SetupDeriving(w, k, p) => t' := SetupEnrolling(w, k, p);
      case SetupEnrolling(w, k, p) => t' := SetupAnswered(w, k, p, db.canary == None);
      case SetupAnswered(w, k, p, enrolled) =>
        if enrolled {
          authPublicKeyHex := Some(p);
          BeginSetUnlocked(k);
          t' := Unlocking(w, k);
        }
      case UnlockLoading(w, k) => t' := UnlockLoaded(w, k, db.canary);
      case UnlockLoaded(w, k, canary) =>
        if canary.Some? { t' := UnlockChecking(w, k, canary.value); }
      case UnlockChecking(w, k, c) =>
        if Opens(c, k) {
          BeginSetUnlocked(k);
          t' := Unlocking(w, k);
        }
      case Unlocking(_, k) => FinishSetUnlocked(k, None);
      case KeyAwaiting(_, purpose, promise) => derivedKeys := derivedKeys[purpose := promise];
      case Finished(_) =>
    }
  }

  /** The managers one process or several run, over one database, with the calls in flight. */
  class Deployment {
    var db: Db
    const managers: seq<MasterKeyManager>
    var tasks: seq<Task>
    var answers: seq<Answer>
    ghost var wins: seq<Key>

    ghost predicate Valid()
      reads this
    {
      forall v, w :: 0 <= v < w < |managers| ==> managers[v] != managers[w]
    }

    ghost predicate Shows(s: Sys)
      reads this, managers
    {
      && s.db == db && s.tasks == tasks && s.answers == answers && s.wins == wins
      && |s.managers| == |managers| && forall w :: 0 <= w < |managers| ==> s.managers[w] == managers[w].View()
    }

    constructor (db: Db, n: nat)
      ensures Valid() && Shows(Start(db, n)) && fresh(managers)
    {
      var all: seq<MasterKeyManager> := [];
      while |all| < n
        invariant |all| <= n && fresh(all)
        invariant forall v, w :: 0 <= v < w < |all| ==> all[v] != all[w]
        invariant forall w :: 0 <= w < |all| ==> all[w].View() == FRESH
      {
        var m := new MasterKeyManager();
        all := all + [m];
      }
      this.db, managers, tasks, answers, wins := db, all, [], [], [];
    }

    method Call(w: nat, call: Call, ghost s: Sys)
      requires Valid() && w < |managers| && Shows(s)
      modifies this, managers
      ensures Valid() && Shows(Called(s, w, call))
    {
      match call
      case Initialize(given) => tasks := tasks + [InitLoading(w, given)];
      case Setup(k, p) =>
        var t := managers[w].BeginSettingUp(w, k, p);
        tasks := tasks + [t];
      case Unlock(k) => tasks := tasks + [UnlockLoading(w, k)];
      case OnUnlock(callback) => managers[w].OnUnlocked(callback);
      case GetDerivedKey(purpose) =>
        var asked := managers[w].BeginGetDerivedKey(purpose);
        match asked
        case Refused =>
        case Cached(key) => answers := answers + [Answer(w, purpose, key)];
        case Awaiting(promise) => tasks := tasks + [KeyAwaiting(w, purpose, promise)];
    }

    method Advance(i: nat, ghost s: Sys)
      requires Valid() && Shows(s) && i < |tasks| && tasks[i].who < |managers|
      modifies this, managers
      ensures Valid() && Shows(Advanced(s, i))
    {
      var t := tasks[i];
      if t.SetupEnrolling? && db.canary == None { wins := wins + [t.key]; }
      var t' := managers[t.who].Resume(db, t);
      tasks := tasks[i := t'];
      if t.KeyAwaiting? { answers := answers + [Answer(t.who, t.purpose, t.promise)]; }
      db := Written(db, t);
    }

    method Fail(i: nat, ghost s: Sys)
      requires Valid() && Shows(s) && i < |tasks| && tasks[i].who < |managers|
      modifies this, managers
      ensures Valid() && Shows(Failed(s, i))
    {
      var t := tasks[i];
      if t.InitChecking? { managers[t.who].state := Locked; }
      tasks := tasks[i := Finished(t.who)];
    }

    method Throw(i: nat, at: nat, ghost s: Sys)
      requires Valid() && Shows(s) && i < |tasks| && tasks[i].who < |managers| && tasks[i].Unlocking?
      modifies this, managers
      ensures Valid() && Shows(Next(s, Throws(i, at)))
    {
      var t := tasks[i];
      var m := managers[t.who];
      if m.state == Unlocked || at >= |m.unlockCallbacks| { return; }
      m.FinishSetUnlocked(t.key, Some(at));
      tasks := tasks[i := Finished(t.who)];
    }

    method Happens(e: Event, ghost s: Sys)
      requires Valid() && Shows(s)
      modifies this, managers
      ensures Valid() && Shows(Next(s, e))
    {
      match e
      case Calls(w, call) => if w < |managers| { Call(w, call, s); }
      case Settles(w, purpose) => if w < |managers| { managers[w].SettleDerivation(purpose); }
      case Advances(i) => if i < |tasks| && tasks[i].who < |managers| { Advance(i, s); }
      case Fails(i) => if i < |tasks| && tasks[i].who < |managers| { Fail(i, s); }
      case Throws(i, at) =>
        if i < |tasks| && tasks[i].Unlocking? && tasks[i].who < |managers| { Throw(i, at, s); }
    }
  }

  /**
  Any events, played on the objects themselves: they end where the protocol's run ends, so the objects keep its
  promises. Any two unlocked managers hold one key, the enrolled one, every key handed out is its derivation, and each
  object has called its callbacks once, in order, exactly where nothing broke that promise.
  */
  method Play(db: Db, n: nat, events: seq<Event>) returns (d: Deployment)
    ensures fresh(d) && d.Valid() && |d.managers| == n && d.Shows(Run(Start(db, n), events))
    ensures db.canary.Some? ==> d.db.canary == db.canary
    ensures forall m <- d.managers :: m.state == Unlocked ==>
      m.unlockKeyHex.Some? && Enrolled(d.db.canary, m.unlockKeyHex.value)
    ensures forall a <- d.answers :: Right(d.db.canary, a.purpose, a.key)
    ensures forall w: nat :: w < n ==> (CallbacksOk(d.managers[w].View()) <==> NeverBreaks(Start(db, n), events, w))
  {
    d := new Deployment(db, n);
    for i := 0 to |events|
      invariant fresh(d) && fresh(d.managers) && d.Valid() && d.Shows(Run(Start(db, n), events[..i]))
    {
      d.Happens(events[i], Run(Start(db, n), events[..i]));
      assert events[..i + 1][..i] == events[..i];
    }
    assert events[..|events|] == events;
    StartOk(db, n);
    RunOk(Start(db, n), events);
    EnrolmentSafety(db, n, events);
    ghost var s := Run(Start(db, n), events);
    forall m | m in d.managers && m.state == Unlocked
      ensures m.unlockKeyHex.Some? && Enrolled(d.db.canary, m.unlockKeyHex.value)
    {
      var w: nat :| w < |d.managers| && d.managers[w] == m;
      assert IsUnlocked(s, w);
    }
    forall w: nat | w < n ensures CallbacksOk(d.managers[w].View()) <==> NeverBreaks(Start(db, n), events, w) {
      CallbacksRunOnce(Start(db, n), events, w);
    }
  }
}
