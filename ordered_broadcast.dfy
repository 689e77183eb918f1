/** Ordered broadcasts: the platform's receiver registry, which delivers an
    ordered broadcast to matching receivers from the highest priority down
    and stops at the first receiver that aborts; and
    OrderedBroadcastDemoActivity, which registers the spam filter at
    priority 100 and the inbox at priority 1 while it is started. */
module OrderedBroadcast {
  import opened Platform
  import opened OrderedConstants
  import opened Text
  import SpamFilter
  import Inbox

  datatype ReceiverKind = SpamFilterReceiver | InboxReceiver

  /** One `registerReceiver(receiver, filter)` made by the app `owner`,
      the filter naming one action and a priority. */
  datatype Registration = Registration(receiver: ReceiverKind, action: string, priority: int, owner: string)

  function Run(r: ReceiverKind, intent: Intent): ReceiveEffect {
    match r
    case SpamFilterReceiver => SpamFilter.OnReceive(intent)
    case InboxReceiver => Inbox.OnReceive(intent)
  }

  predicate Aborts(reg: Registration, intent: Intent) {
    Run(reg.receiver, intent).aborted
  }

  /** The filter's action matches, and an intent restricted to a package
      (`setPackage`) only reaches receivers registered by that package. */
  predicate Matches(reg: Registration, intent: Intent) {
    intent.action == Some(reg.action)
    && (intent.targetPackage.None? || intent.targetPackage == Some(reg.owner))
  }

  /** Registrations sorted from the highest priority down. */
  ghost predicate ByPriority(regs: seq<Registration>) {
    forall i, j :: 0 <= i < j < |regs| ==> regs[i].priority >= regs[j].priority
  }

  // ------------------------------------------------------------ selections

  /** Which registrations a selection keeps. */
  datatype Criterion = ForIntent(intent: Intent) | NotOf(receiver: ReceiverKind)

  predicate Selects(c: Criterion, reg: Registration) {
    match c
    case ForIntent(intent) => Matches(reg, intent)
    case NotOf(r) => reg.receiver != r
  }

  /** The registrations `c` selects, in their original order. */
  function Keep(regs: seq<Registration>, c: Criterion): (r: seq<Registration>)
    ensures |r| <= |regs|
    ensures forall x :: x in r <==> x in regs && Selects(c, x)
    decreases |regs|
  {
    if regs == [] then []
    else (if Selects(c, regs[0]) then [regs[0]] else []) + Keep(regs[1..], c)
  }

  /** The receivers an intent reaches, before any abort is considered. */
  function Matching(regs: seq<Registration>, intent: Intent): seq<Registration> {
    Keep(regs, ForIntent(intent))
  }

  /** What `unregisterReceiver(r)` leaves: every filter of `r` is gone. */
  function Without(regs: seq<Registration>, r: ReceiverKind): seq<Registration> {
    Keep(regs, NotOf(r))
  }

  lemma {:induction false} KeepByPriority(regs: seq<Registration>, c: Criterion)
    requires ByPriority(regs)
    ensures ByPriority(Keep(regs, c))
    decreases |regs|
  {
    if regs != [] {
      KeepByPriority(regs[1..], c);
      var rest := Keep(regs[1..], c);
      forall x | x in rest ensures x.priority <= regs[0].priority {
        var k :| 0 <= k < |regs[1..]| && regs[1..][k] == x;
        assert regs[k + 1] == x;
      }
    }
  }

  // ------------------------------------------------------------- insertion

  /** Where a new filter of priority `p` goes: after every registration of
      priority `p` or more, so equal priorities keep registration order. */
  function InsertionPoint(regs: seq<Registration>, p: int): (k: nat)
    ensures k <= |regs|
    ensures forall j :: 0 <= j < k ==> regs[j].priority >= p
    ensures k < |regs| ==> regs[k].priority < p
    decreases |regs|
  {
    if regs == [] || regs[0].priority < p then 0 else 1 + InsertionPoint(regs[1..], p)
  }

  function InsertByPriority(regs: seq<Registration>, reg: Registration): seq<Registration> {
    var k := InsertionPoint(regs, reg.priority);
    regs[..k] + [reg] + regs[k..]
  }

  /** Where each entry lands after an insertion at point `k`. */
  lemma InsertedAt(regs: seq<Registration>, reg: Registration, k: nat)
    requires k <= |regs|
    ensures var r := regs[..k] + [reg] + regs[k..];
      && |r| == |regs| + 1 && r[k] == reg
      && (forall i :: 0 <= i < k ==> r[i] == regs[i])
      && (forall i :: k < i < |r| ==> r[i] == regs[i - 1])
  {
  }

  /** Insertion keeps the registry sorted. */
  lemma InsertByPriorityKeepsOrder(regs: seq<Registration>, reg: Registration)
    requires ByPriority(regs)
    ensures ByPriority(InsertByPriority(regs, reg))
  {
    var k := InsertionPoint(regs, reg.priority);
    var r := InsertByPriority(regs, reg);
    InsertedAt(regs, reg, k);
    forall i, j | 0 <= i < j < |r| ensures r[i].priority >= r[j].priority {
      if j < k {
        assert r[i] == regs[i] && r[j] == regs[j];
      } else if j == k {
        assert r[i] == regs[i];
      } else if i < k {
        assert r[i] == regs[i] && r[j] == regs[j - 1];
      } else if i == k {
        assert r[j] == regs[j - 1];
      } else {
        assert r[i] == regs[i - 1] && r[j] == regs[j - 1];
      }
    }
  }

  /** Insertion adds exactly the new entry and loses none. */
  lemma InsertByPriorityAddsOne(regs: seq<Registration>, reg: Registration)
    ensures multiset(InsertByPriority(regs, reg)) == multiset(regs) + multiset{reg}
  {
    var k := InsertionPoint(regs, reg.priority);
    assert regs == regs[..k] + regs[k..];
  }

  // -------------------------------------------------------------- delivery

  datatype DispatchResult = Delivered | Aborted(at: int)

  /** One ordered dispatch as observed: how it ended, which registrations
      ran in which order, and the toasts they showed. */
  datatype Trace = Trace(result: DispatchResult, invoked: seq<Registration>, toasts: seq<string>)

  function ToastList(e: ReceiveEffect): seq<string> {
    if e.toast.Some? then [e.toast.value] else []
  }

  /** The toasts a sequence of receivers shows, in order. */
  function ToastsOf(invoked: seq<Registration>, intent: Intent): seq<string>
    decreases |invoked|
  {
    if invoked == [] then []
    else ToastList(Run(invoked[0].receiver, intent)) + ToastsOf(invoked[1..], intent)
  }

  /** The ordered dispatch over a registry kept in priority order: run
      each matching receiver in turn; the first abort ends the dispatch. */
  function Deliver(regs: seq<Registration>, intent: Intent): Trace
    decreases |regs|
  {
    if regs == [] then Trace(Delivered, [], [])
    else if !Matches(regs[0], intent) then Deliver(regs[1..], intent)
    else
      var e := Run(regs[0].receiver, intent);
      if e.aborted then Trace(Aborted(regs[0].priority), [regs[0]], ToastList(e))
      else
        var rest := Deliver(regs[1..], intent);
        Trace(rest.result, [regs[0]] + rest.invoked, ToastList(e) + rest.toasts)
  }

  /** Delivery runs the matching receivers in order up to and including the
      first that aborts: it ends Delivered exactly when it ran them all and
      none aborted, and Aborted(p) when the last one it ran aborted at
      priority p. Each receiver that ran showed its toasts, in order. */
  lemma {:induction false} DeliverFollowsMatching(regs: seq<Registration>, intent: Intent)
    ensures var t := Deliver(regs, intent); var m := Matching(regs, intent);
      && |t.invoked| <= |m| && t.invoked == m[..|t.invoked|]
      && (forall k :: 0 <= k < |t.invoked| - 1 ==> !Aborts(t.invoked[k], intent))
      && (t.result == Delivered <==> t.invoked == m && forall k :: 0 <= k < |m| ==> !Aborts(m[k], intent))
      && (t.result.Aborted? ==>
            |t.invoked| > 0 && Aborts(t.invoked[|t.invoked| - 1], intent)
            && t.result.at == t.invoked[|t.invoked| - 1].priority)
      && t.toasts == ToastsOf(t.invoked, intent)
    decreases |regs|
  {
    if regs != [] {
      DeliverFollowsMatching(regs[1..], intent);
      var t := Deliver(regs, intent);
      var m := Matching(regs, intent);
      if Matches(regs[0], intent) {
        assert m == [regs[0]] + Matching(regs[1..], intent);
        if !Aborts(regs[0], intent) {
          var rest := Deliver(regs[1..], intent);
          assert t.invoked[1..] == rest.invoked;
        }
      }
    }
  }

  /** Receivers run in non-increasing priority order. */
  lemma DeliverInPriorityOrder(regs: seq<Registration>, intent: Intent)
    requires ByPriority(regs)
    ensures ByPriority(Deliver(regs, intent).invoked)
  {
    DeliverFollowsMatching(regs, intent);
    KeepByPriority(regs, ForIntent(intent));
  }

  /** An intent restricted to a package never reaches another app's receiver. */
  lemma DeliverStaysInPackage(regs: seq<Registration>, intent: Intent, packageName: string)
    requires intent.targetPackage == Some(packageName)
    ensures forall reg :: reg in Deliver(regs, intent).invoked ==> reg.owner == packageName
  {
    DeliverFollowsMatching(regs, intent);
    var t := Deliver(regs, intent);
    var m := Matching(regs, intent);
    forall reg | reg in t.invoked ensures reg.owner == packageName {
      assert reg in m;
    }
  }

  // -------------------------------------------------------------- registry

  /** The platform's table of dynamically registered receivers, kept in
      dispatch order. */
  class Registry {
    var registrations: seq<Registration>

    ghost predicate Valid()
      reads this
    {
      ByPriority(registrations)
    }

    constructor ()
      ensures Valid() && registrations == []
    {
      registrations := [];
    }

    method Register(receiver: ReceiverKind, action: string, priority: int, owner: string)
      requires Valid()
      modifies this
      ensures Valid()
      ensures registrations == InsertByPriority(old(registrations), Registration(receiver, action, priority, owner))
    {
      var reg := Registration(receiver, action, priority, owner);
      InsertByPriorityKeepsOrder(registrations, reg);
      registrations := InsertByPriority(registrations, reg);
    }

    /** `unregisterReceiver`: removes every filter of the receiver. The
        platform throws when the receiver was not registered; that case is
        `registered == false`, with the table untouched. */
    method Unregister(receiver: ReceiverKind) returns (registered: bool)
      requires Valid()
      modifies this
      ensures Valid()
      ensures registered <==> exists reg :: reg in old(registrations) && reg.receiver == receiver
      ensures registrations == Without(old(registrations), receiver)
      ensures !registered ==> registrations == old(registrations)
    {
      registered := exists reg | reg in registrations :: reg.receiver == receiver;
      if !registered {
        KeepAllSelected(registrations, NotOf(receiver));
      }
      KeepByPriority(registrations, NotOf(receiver));
      registrations := Without(registrations, receiver);
    }

    /** `sendOrderedBroadcast`: walk the table in priority order, running
        each matching receiver, and stop at the first abort. */
    method Dispatch(intent: Intent) returns (t: Trace)
      ensures t == Deliver(registrations, intent)
    {
      var invoked: seq<Registration> := [];
      var toasts: seq<string> := [];
      var i := 0;
      while i < |registrations|
        invariant 0 <= i <= |registrations|
        invariant Deliver(registrations, intent) == Extend(invoked, toasts, Deliver(registrations[i..], intent))
      {
        var reg := registrations[i];
        assert registrations[i..][1..] == registrations[i + 1..];
        if Matches(reg, intent) {
          var e := Run(reg.receiver, intent);
          if e.aborted {
            return Trace(Aborted(reg.priority), invoked + [reg], toasts + ToastList(e));
          }
          invoked := invoked + [reg];
          toasts := toasts + ToastList(e);
        }
        i := i + 1;
      }
      t := Trace(Delivered, invoked, toasts);
    }
  }

  /** A dispatch prefixed by receivers that already ran without aborting. */
  function Extend(invoked: seq<Registration>, toasts: seq<string>, t: Trace): Trace {
    Trace(t.result, invoked + t.invoked, toasts + t.toasts)
  }

  lemma {:induction false} KeepAllSelected(regs: seq<Registration>, c: Criterion)
    requires forall x :: x in regs ==> Selects(c, x)
    ensures Keep(regs, c) == regs
    decreases |regs|
  {
    if regs != [] {
      KeepAllSelected(regs[1..], c);
    }
  }

  lemma {:induction false} KeepNoneSelected(regs: seq<Registration>, c: Criterion)
    requires forall x :: x in regs ==> !Selects(c, x)
    ensures Keep(regs, c) == []
    decreases |regs|
  {
    if regs != [] {
      KeepNoneSelected(regs[1..], c);
    }
  }

  /** With both receivers unregistered, the table holds nothing at all. */
  lemma NoReceiverLeft(regs: seq<Registration>)
    ensures Without(Without(regs, SpamFilterReceiver), InboxReceiver) == []
  {
    KeepNoneSelected(Without(regs, SpamFilterReceiver), NotOf(InboxReceiver));
  }

  // ------------------------------------------- OrderedBroadcastDemoActivity

  const SPAM_FILTER_PRIORITY := 100
  const INBOX_PRIORITY := 1

  function SpamFilterRegistration(packageName: string): Registration {
    Registration(SpamFilterReceiver, ACTION_ORDERED_MESSAGE, SPAM_FILTER_PRIORITY, packageName)
  }

  function InboxRegistration(packageName: string): Registration {
    Registration(InboxReceiver, ACTION_ORDERED_MESSAGE, INBOX_PRIORITY, packageName)
  }

  /** `sendOrderedMessage`'s intent: the ordered action, the message under
      the message key, restricted to the sending app. */
  function OrderedMessageIntent(message: string, packageName: string): Intent {
    PutExtra(ActionIntent(ACTION_ORDERED_MESSAGE), EXTRA_MESSAGE, VStr(message)).(targetPackage := Some(packageName))
  }

  /** The intent carries the action, the message unchanged and the package. */
  lemma OrderedMessageIntentCarries(message: string, packageName: string)
    ensures var i := OrderedMessageIntent(message, packageName);
      && i.action == Some(ACTION_ORDERED_MESSAGE)
      && GetStringExtra(i, EXTRA_MESSAGE) == Some(message)
      && i.targetPackage == Some(packageName)
  {
  }

  /** `onStart`: both receivers on the same action, filter at 100, inbox at 1.
      (The two SDK branches differ only in the not-exported flag, which
      does not change what an intent restricted to this app reaches.) */
  method OnStart(registry: Registry, packageName: string)
    requires registry.Valid()
    modifies registry
    ensures registry.Valid()
    ensures registry.registrations ==
      InsertByPriority(InsertByPriority(old(registry.registrations), SpamFilterRegistration(packageName)),
                       InboxRegistration(packageName))
  {
    registry.Register(SpamFilterReceiver, ACTION_ORDERED_MESSAGE, SPAM_FILTER_PRIORITY, packageName);
    registry.Register(InboxReceiver, ACTION_ORDERED_MESSAGE, INBOX_PRIORITY, packageName);
  }

  /** `onStop`: unregister the filter, then the inbox. An unregistered
      filter makes the first call throw, so the second never happens. */
  method OnStop(registry: Registry) returns (ok: bool)
    requires registry.Valid()
    modifies registry
    ensures registry.Valid()
    ensures var spamGone := Without(old(registry.registrations), SpamFilterReceiver);
      registry.registrations == if spamGone == old(registry.registrations) then spamGone
                                else Without(spamGone, InboxReceiver)
    ensures ok <==> ((exists reg :: reg in old(registry.registrations) && reg.receiver == SpamFilterReceiver)
                  && (exists reg :: reg in old(registry.registrations) && reg.receiver == InboxReceiver))
    ensures ok ==> registry.registrations == []
  {
    ok := registry.Unregister(SpamFilterReceiver);
    if ok {
      ok := registry.Unregister(InboxReceiver);
      NoReceiverLeft(old(registry.registrations));
    }
  }

  /** `sendOrderedMessage`: no result receiver is passed, so the sender
      learns nothing; the toasts are the dispatch's only visible effect. */
  method SendOrderedMessage(registry: Registry, packageName: string, message: string) returns (shown: seq<string>)
    ensures shown == Deliver(registry.registrations, OrderedMessageIntent(message, packageName)).toasts
  {
    var t := registry.Dispatch(OrderedMessageIntent(message, packageName));
    shown := t.toasts;
  }

  // ------------------------------------------------------------- scenarios

  /** What `onStart` leaves when the app had nothing registered. */
  lemma StartedFromEmpty(packageName: string)
    ensures InsertByPriority(InsertByPriority([], SpamFilterRegistration(packageName)), InboxRegistration(packageName))
         == [SpamFilterRegistration(packageName), InboxRegistration(packageName)]
  {
    var once := InsertByPriority([], SpamFilterRegistration(packageName));
    assert once == [SpamFilterRegistration(packageName)];
    assert InsertionPoint(once, INBOX_PRIORITY) == 1;
  }

  /** Whatever the table already held, `onStart` puts the filter ahead of
      the inbox, so the filter always runs first. */
  lemma FilterAheadOfInbox(regs: seq<Registration>, packageName: string)
    requires ByPriority(regs)
    ensures var r := InsertByPriority(InsertByPriority(regs, SpamFilterRegistration(packageName)),
                                      InboxRegistration(packageName));
      exists i, j :: 0 <= i < j < |r| && r[i] == SpamFilterRegistration(packageName)
                                      && r[j] == InboxRegistration(packageName)
  {
    var spam, inbox := SpamFilterRegistration(packageName), InboxRegistration(packageName);
    var k1 := InsertionPoint(regs, SPAM_FILTER_PRIORITY);
    var once := InsertByPriority(regs, spam);
    InsertedAt(regs, spam, k1);
    var k2 := InsertionPoint(once, INBOX_PRIORITY);
    var r := InsertByPriority(once, inbox);
    InsertedAt(once, inbox, k2);
    assert r[k1] == spam && r[k2] == inbox;
  }

  /** A clean message passes the filter and the inbox shows it. */
  lemma CleanMessageReachesInbox(packageName: string, message: string)
    requires !SpamFilter.IsSpam(message)
    ensures Deliver([SpamFilterRegistration(packageName), InboxRegistration(packageName)],
                    OrderedMessageIntent(message, packageName))
         == Trace(Delivered, [SpamFilterRegistration(packageName), InboxRegistration(packageName)],
                  [Inbox.INBOX_PREFIX + message])
  {
    ContainsIgnoreCaseCorrect(message, "spam");
    var intent := OrderedMessageIntent(message, packageName);
    var regs := [SpamFilterRegistration(packageName), InboxRegistration(packageName)];
    assert GetStringExtra(intent, EXTRA_MESSAGE) == Some(message);
    assert !Aborts(regs[0], intent);
    assert regs[1..][1..] == [];
    assert Deliver(regs[1..], intent) == Trace(Delivered, [regs[1]], [Inbox.INBOX_PREFIX + message]);
  }

  /** A spam message is aborted at the filter; the inbox never sees it. */
  lemma SpamMessageStopsAtFilter(packageName: string, message: string)
    requires SpamFilter.IsSpam(message)
    ensures Deliver([SpamFilterRegistration(packageName), InboxRegistration(packageName)],
                    OrderedMessageIntent(message, packageName))
         == Trace(Aborted(SPAM_FILTER_PRIORITY), [SpamFilterRegistration(packageName)],
                  [SpamFilter.BLOCKED_TOAST])
  {
    ContainsIgnoreCaseCorrect(message, "spam");
  }

  /** The screen's two buttons, against the table `onStart` builds. */
  lemma DemoButtons(packageName: string)
    ensures var regs := InsertByPriority(InsertByPriority([], SpamFilterRegistration(packageName)),
                                         InboxRegistration(packageName));
      && Deliver(regs, OrderedMessageIntent("Hello Friend! 👋", packageName)).result == Delivered
      && Deliver(regs, OrderedMessageIntent("Hello Friend! 👋", packageName)).toasts
         == [Inbox.INBOX_PREFIX + "Hello Friend! 👋"]
      && Deliver(regs, OrderedMessageIntent("Buy cheap SPAM now! 🥫", packageName)).result
         == Aborted(SPAM_FILTER_PRIORITY)
      && Deliver(regs, OrderedMessageIntent("Buy cheap SPAM now! 🥫", packageName)).toasts
         == [SpamFilter.BLOCKED_TOAST]
  {
    StartedFromEmpty(packageName);
    SpamFilter.DemoCleanMessage();
    SpamFilter.DemoSpamMessage();
    CleanMessageReachesInbox(packageName, "Hello Friend! 👋");
    SpamMessageStopsAtFilter(packageName, "Buy cheap SPAM now! 🥫");
  }

  /** After `onStop` a dispatch reaches neither receiver, nor anything. */
  lemma StoppedReachesNeither(regs: seq<Registration>, intent: Intent)
    ensures Deliver(Without(Without(regs, SpamFilterReceiver), InboxReceiver), intent) == Trace(Delivered, [], [])
  {
    NoReceiverLeft(regs);
  }

  /** The activity's life, start to stop, as the screen drives it. */
  method DemoLifecycle(packageName: string)
  {
    var registry := new Registry();
    OnStart(registry, packageName);
    StartedFromEmpty(packageName);
    var started := registry.registrations;
    assert started == [SpamFilterRegistration(packageName), InboxRegistration(packageName)];

    var clean, spam := "Hello Friend! 👋", "Buy cheap SPAM now! 🥫";
    SpamFilter.DemoCleanMessage();
    SpamFilter.DemoSpamMessage();
    CleanMessageReachesInbox(packageName, clean);
    SpamMessageStopsAtFilter(packageName, spam);

    var shown := SendOrderedMessage(registry, packageName, clean);
    assert shown == [Inbox.INBOX_PREFIX + clean];
    shown := SendOrderedMessage(registry, packageName, spam);
    assert shown == [SpamFilter.BLOCKED_TOAST];

    assert started[0].receiver == SpamFilterReceiver && started[1].receiver == InboxReceiver;
    var ok := OnStop(registry);
    assert ok;
    shown := SendOrderedMessage(registry, packageName, clean);
    assert shown == [];
  }
}
