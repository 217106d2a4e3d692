/**
 * The POST /notifications handler, as the trace of calls it makes: fetch the preferences,
 * build the record, route, send in a fixed order, save, and respond; the first call that
 * throws ends the sequence with a 500 response.
 */
module Controller {
  import opened Wrappers
  import opened Models
  import Router

  /** The fields the handler takes from the request body. */
  datatype Request = Request(userId: string, message: string, importance: Importance, context: Option<string>)

  /** An awaited collaborator call made after routing. */
  datatype Action =
    | SendEmail(userId: string, message: string, context: Option<string>)
    | SendSms(userId: string, message: string, context: Option<string>)
    | SendInApp(userId: string, message: string, context: Option<string>)
    | Save(notification: Notification)

  /** The JSON body: `{success: true, channels}` or `{success: false, error}`. */
  datatype Body = Created(channels: seq<Channel>) | Failed(error: string)
  {
    predicate Success() { Created? }
  }

  /** What an observer of the handler sees, in order. */
  datatype Event =
    | FetchPrefs(userId: string)
    | Perform(action: Action)
    | Respond(status: int, body: Body)

  /**
   * The collaborators as one request sees them: the preference lookup (which may throw),
   * the error each call throws if it throws, and the clock reading for `createdAt`.
   */
  datatype Env = Env(
    getByUserId: string -> Result<UserPreference, string>,
    fails: Action -> Option<string>,
    now: Timestamp)

  /** The order in which the handler tests the routed list and calls the senders. */
  const DispatchOrder: seq<Channel> := [Email, Sms, InApp]

  /** The record the handler builds from the request and the clock. */
  function NewNotification(req: Request, now: Timestamp): Notification
  {
    Notification(req.userId, req.message, req.importance, req.context, now)
  }

  /** The sender call for one channel. */
  function SendFor(c: Channel, req: Request): Action
  {
    match c
    case Email => SendEmail(req.userId, req.message, req.context)
    case Sms => SendSms(req.userId, req.message, req.context)
    case InApp => SendInApp(req.userId, req.message, req.context)
  }

  function Sends(cs: seq<Channel>, req: Request): seq<Action>
  {
    seq(|cs|, i requires 0 <= i < |cs| => SendFor(cs[i], req))
  }

  function Performs(actions: seq<Action>): seq<Event>
  {
    seq(|actions|, i requires 0 <= i < |actions| => Perform(actions[i]))
  }

  /** The routed channels in the order they are sent: dispatch order, not routing order. */
  function Dispatched(channels: seq<Channel>): seq<Channel>
  {
    Router.KeepPreferred(DispatchOrder, channels)
  }

  /**
   * Every call the handler makes after routing, when none of them throws: the three
   * `includes` tests in dispatch order, then the save.
   */
  function Plan(req: Request, now: Timestamp, channels: seq<Channel>): seq<Action>
  {
    (if Email in channels then [SendEmail(req.userId, req.message, req.context)] else [])
    + (if Sms in channels then [SendSms(req.userId, req.message, req.context)] else [])
    + (if InApp in channels then [SendInApp(req.userId, req.message, req.context)] else [])
    + [Save(NewNotification(req, now))]
  }

  /** Index of the first call that throws, or the number of calls when none does. */
  function FirstFailing(actions: seq<Action>, fails: Action -> Option<string>): (k: nat)
    ensures k <= |actions|
    ensures forall j :: 0 <= j < k ==> fails(actions[j]).None?
    ensures k < |actions| ==> fails(actions[k]).Some?
  {
    if actions == [] || fails(actions[0]).Some? then 0
    else 1 + FirstFailing(actions[1..], fails)
  }

  /** Awaits the calls in order inside the `try`; the first that throws goes to the `catch`. */
  function Execute(actions: seq<Action>, fails: Action -> Option<string>, channels: seq<Channel>): seq<Event>
  {
    if actions == [] then [Respond(201, Created(channels))]
    else
      [Perform(actions[0])]
      + match fails(actions[0])
        case Some(e) => [Respond(500, Failed(e))]
        case None => Execute(actions[1..], fails, channels)
  }

  /** The whole handler as a trace. */
  function HandlerTrace(req: Request, env: Env): seq<Event>
  {
    [FetchPrefs(req.userId)]
    + match env.getByUserId(req.userId)
      case Failure(e) => [Respond(500, Failed(e))]
      case Success(pref) =>
        var channels := Router.Route(req.importance, req.context, pref.preferredChannels);
        Execute(Plan(req, env.now, channels), env.fails, channels)
  }

  /** The handler, step by step; the early return is the `catch` block. */
  method CreateNotification(req: Request, env: Env) returns (trace: seq<Event>)
    ensures trace == HandlerTrace(req, env)
  {
    trace := [FetchPrefs(req.userId)];
    var lookup := env.getByUserId(req.userId);
    if lookup.Failure? {
      trace := trace + [Respond(500, Failed(lookup.error))];
      return;
    }
    var userPref := lookup.value;
    var notification := NewNotification(req, env.now);
    var channels := Router.RouteNotification(req.importance, req.context, userPref);
    var rest := Dispatch(req, env, notification, channels);
    trace := trace + rest;
  }

  /**
   * The rest of the `try` block: the three guarded sends in dispatch order, the save and
   * the 201 response, or a 500 response as soon as one of them throws.
   */
  method Dispatch(req: Request, env: Env, notification: Notification, channels: seq<Channel>)
    returns (events: seq<Event>)
    requires notification == NewNotification(req, env.now)
    ensures events == Execute(Plan(req, env.now, channels), env.fails, channels)
  {
    var email := SendEmail(req.userId, req.message, req.context);
    var sms := SendSms(req.userId, req.message, req.context);
    var inApp := SendInApp(req.userId, req.message, req.context);
    var saved := Save(notification);
    ghost var afterSms := (if InApp in channels then [inApp] else []) + [saved];
    ghost var afterEmail := (if Sms in channels then [sms] else []) + afterSms;
    assert Plan(req, env.now, channels) == (if Email in channels then [email] else []) + afterEmail;
    var thrown: bool;
    events, thrown := Attempt([], Email in channels, email, afterEmail, env.fails, channels);
    if thrown { return; }
    events, thrown := Attempt(events, Sms in channels, sms, afterSms, env.fails, channels);
    if thrown { return; }
    events, thrown := Attempt(events, InApp in channels, inApp, [saved], env.fails, channels);
    if thrown { return; }
    events, thrown := Attempt(events, true, saved, [], env.fails, channels);
    if thrown { return; }
    events := events + [Respond(201, Created(channels))];
  }

  /**
   * One guarded, awaited call appended to the events so far: made only when the guard
   * holds; when it throws, the events end with the 500 response.
   */
  method Attempt(done: seq<Event>, guard: bool, call: Action, ghost rest: seq<Action>,
                 fails: Action -> Option<string>, channels: seq<Channel>)
    returns (events: seq<Event>, thrown: bool)
    ensures thrown <==> guard && fails(call).Some?
    ensures thrown ==> events == done + Execute((if guard then [call] else []) + rest, fails, channels)
    ensures !thrown ==> events + Execute(rest, fails, channels)
                        == done + Execute((if guard then [call] else []) + rest, fails, channels)
  {
    GuardedStep(guard, call, rest, fails, channels);
    events, thrown := done, false;
    if guard {
      events := events + [Perform(call)];
      var error := fails(call);
      if error.Some? {
        events := events + [Respond(500, Failed(error.value))];
        thrown := true;
      }
    }
  }

  /** One guarded call of the runner: made only when its guard holds, then the catch or the rest. */
  lemma GuardedStep(guard: bool, a: Action, rest: seq<Action>, fails: Action -> Option<string>, channels: seq<Channel>)
    ensures Execute((if guard then [a] else []) + rest, fails, channels)
         == if !guard then Execute(rest, fails, channels)
            else [Perform(a)] + if fails(a).Some? then [Respond(500, Failed(fails(a).value))]
                                else Execute(rest, fails, channels)
  {
    if guard {
      assert ([a] + rest)[1..] == rest;
    } else {
      assert [] + rest == rest;
    }
  }

  // ---------------------------------------------------------------------------------------
  // The calls after routing

  lemma SendsConcat(xs: seq<Channel>, ys: seq<Channel>, req: Request)
    ensures Sends(xs + ys, req) == Sends(xs, req) + Sends(ys, req)
  {
  }

  /**
   * The sends are the routed channels filtered along the dispatch order, each turned into
   * its sender call, followed by the save.
   */
  lemma PlanFollowsDispatchOrder(req: Request, now: Timestamp, channels: seq<Channel>)
    ensures Plan(req, now, channels) == Sends(Dispatched(channels), req) + [Save(NewNotification(req, now))]
    ensures Router.InOrderOf(Dispatched(channels), DispatchOrder)
    ensures forall c :: c in Dispatched(channels) <==> c in channels
  {
    PlanIsDispatchedSends(req, now, channels);
    Router.KeepPreferredOrdered(DispatchOrder, channels);
    DispatchedMembers(channels);
  }

  lemma PlanIsDispatchedSends(req: Request, now: Timestamp, channels: seq<Channel>)
    ensures Plan(req, now, channels) == Sends(Dispatched(channels), req) + [Save(NewNotification(req, now))]
  {
    Router.Unfold3(Email, Sms, InApp, channels);
    var e := if Email in channels then [Email] else [];
    var s := if Sms in channels then [Sms] else [];
    var i := if InApp in channels then [InApp] else [];
    assert Dispatched(channels) == e + s + i;
    SendsConcat(e, s, req);
    SendsConcat(e + s, i, req);
    assert Sends(e, req) == if Email in channels then [SendEmail(req.userId, req.message, req.context)] else [];
    assert Sends(s, req) == if Sms in channels then [SendSms(req.userId, req.message, req.context)] else [];
    assert Sends(i, req) == if InApp in channels then [SendInApp(req.userId, req.message, req.context)] else [];
  }

  lemma DispatchedMembers(channels: seq<Channel>)
    ensures forall c :: c in Dispatched(channels) <==> c in channels
  {
    Router.KeepPreferredMembers(DispatchOrder, channels);
    forall c ensures c in DispatchOrder {
      match c
      case Email => assert DispatchOrder[0] == c;
      case Sms => assert DispatchOrder[1] == c;
      case InApp => assert DispatchOrder[2] == c;
    }
  }

  /** Each sender is called once if its channel was routed, and never otherwise. */
  lemma PlanSendsRouted(req: Request, now: Timestamp, channels: seq<Channel>)
    ensures forall c :: multiset(Plan(req, now, channels))[SendFor(c, req)] == if c in channels then 1 else 0
  {
    var email := SendEmail(req.userId, req.message, req.context);
    var sms := SendSms(req.userId, req.message, req.context);
    var inApp := SendInApp(req.userId, req.message, req.context);
    var rec := Save(NewNotification(req, now));
    var e := if Email in channels then [email] else [];
    var s := if Sms in channels then [sms] else [];
    var i := if InApp in channels then [inApp] else [];
    var m := multiset(Plan(req, now, channels));
    assert m == multiset(e) + multiset(s) + multiset(i) + multiset{rec};
    assert m[email] == if Email in channels then 1 else 0 by {
      assert multiset(s)[email] == 0 && multiset(i)[email] == 0 && multiset{rec}[email] == 0;
    }
    assert m[sms] == if Sms in channels then 1 else 0 by {
      assert multiset(e)[sms] == 0 && multiset(i)[sms] == 0 && multiset{rec}[sms] == 0;
    }
    assert m[inApp] == if InApp in channels then 1 else 0 by {
      assert multiset(e)[inApp] == 0 && multiset(s)[inApp] == 0 && multiset{rec}[inApp] == 0;
    }
    forall c ensures m[SendFor(c, req)] == if c in channels then 1 else 0 {
      match c
      case Email => assert SendFor(c, req) == email;
      case Sms => assert SendFor(c, req) == sms;
      case InApp => assert SendFor(c, req) == inApp;
    }
  }

  /** The record is saved exactly once, as the last call, even when nothing was routed. */
  lemma PlanSavesOnceLast(req: Request, now: Timestamp, channels: seq<Channel>)
    ensures var plan := Plan(req, now, channels);
            && plan[|plan| - 1] == Save(NewNotification(req, now))
            && (forall k :: 0 <= k < |plan| - 1 ==> !plan[k].Save?)
    ensures channels == [] ==> Plan(req, now, channels) == [Save(NewNotification(req, now))]
  {
    var sends := (if Email in channels then [SendEmail(req.userId, req.message, req.context)] else [])
      + (if Sms in channels then [SendSms(req.userId, req.message, req.context)] else [])
      + (if InApp in channels then [SendInApp(req.userId, req.message, req.context)] else []);
    var plan := Plan(req, now, channels);
    assert plan == sends + [Save(NewNotification(req, now))];
    forall k | 0 <= k < |plan| - 1 ensures !plan[k].Save? {
      assert plan[k] == sends[k];
      assert sends[k] in sends;
    }
  }

  /** Sends follow the dispatch order, whatever order the router listed the channels in. */
  lemma PlanIgnoresRouteOrder(req: Request, now: Timestamp, channels: seq<Channel>, others: seq<Channel>)
    requires forall c :: c in channels <==> c in others
    ensures Plan(req, now, channels) == Plan(req, now, others)
  {
  }

  /** The record handed to `save` carries the request's fields unchanged. */
  lemma SavedRecordCarriesRequest(req: Request, now: Timestamp, channels: seq<Channel>, n: Notification)
    requires Save(n) in Plan(req, now, channels)
    ensures n.userId == req.userId && n.message == req.message
    ensures n.importance == req.importance && n.context == req.context && n.createdAt == now
  {
    PlanSavesOnceLast(req, now, channels);
    var k :| 0 <= k < |Plan(req, now, channels)| && Plan(req, now, channels)[k] == Save(n);
  }

  // ---------------------------------------------------------------------------------------
  // The try/catch runner

  /** The calls a run makes: all of them up to and including the first that throws. */
  function Ran(actions: seq<Action>, fails: Action -> Option<string>): seq<Action>
  {
    if actions == [] then []
    else if fails(actions[0]).Some? then [actions[0]]
    else [actions[0]] + Ran(actions[1..], fails)
  }

  /** The one response a run ends with. */
  function Verdict(actions: seq<Action>, fails: Action -> Option<string>, channels: seq<Channel>): Event
  {
    if actions == [] then Respond(201, Created(channels))
    else if fails(actions[0]).Some? then Respond(500, Failed(fails(actions[0]).value))
    else Verdict(actions[1..], fails, channels)
  }

  /** A run is the calls it makes followed by one response. */
  lemma {:induction false} ExecuteShape(actions: seq<Action>, fails: Action -> Option<string>, channels: seq<Channel>)
    ensures Execute(actions, fails, channels) == Performs(Ran(actions, fails)) + [Verdict(actions, fails, channels)]
  {
    if actions != [] && fails(actions[0]).None? {
      var rest := actions[1..];
      ExecuteShape(rest, fails, channels);
      var done := Ran(rest, fails);
      var last := Verdict(rest, fails, channels);
      assert Execute(actions, fails, channels) == [Perform(actions[0])] + (Performs(done) + [last]);
      assert Ran(actions, fails) == [actions[0]] + done;
      assert Verdict(actions, fails, channels) == last;
      PerformsCons(actions[0], done);
      assert [Perform(actions[0])] + (Performs(done) + [last])
             == ([Perform(actions[0])] + Performs(done)) + [last];
    }
  }

  lemma PerformsCons(a: Action, done: seq<Action>)
    ensures Performs([a] + done) == [Perform(a)] + Performs(done)
  {
  }

  /** The calls made stop at the first that throws; the response carries its message. */
  lemma {:induction false} RanUpToFirstFailing(actions: seq<Action>, fails: Action -> Option<string>, channels: seq<Channel>)
    ensures var k := FirstFailing(actions, fails);
            && Ran(actions, fails) == (if k == |actions| then actions else actions[..k + 1])
            && Verdict(actions, fails, channels)
               == if k == |actions| then Respond(201, Created(channels))
                  else Respond(500, Failed(fails(actions[k]).value))
  {
    if actions != [] {
      if fails(actions[0]).Some? {
        assert actions[..1] == [actions[0]];
      } else {
        var rest := actions[1..];
        RanUpToFirstFailing(rest, fails, channels);
        var k := FirstFailing(rest, fails);
        if k == |rest| {
          assert [actions[0]] + rest == actions;
        } else {
          assert [actions[0]] + rest[..k + 1] == actions[..k + 2];
        }
      }
    }
  }

  /**
   * A run is the calls up to and including the first that throws, then one response: 201
   * with the routed channels when nothing threw, otherwise 500 with the thrown message.
   */
  lemma ExecuteRuns(actions: seq<Action>, fails: Action -> Option<string>, channels: seq<Channel>)
    ensures var k := FirstFailing(actions, fails);
            Execute(actions, fails, channels)
            == if k == |actions| then Performs(actions) + [Respond(201, Created(channels))]
               else Performs(actions[..k + 1]) + [Respond(500, Failed(fails(actions[k]).value))]
  {
    ExecuteShape(actions, fails, channels);
    RanUpToFirstFailing(actions, fails, channels);
  }

  /** The event a run ends with is a response, whether or not a call threw. */
  lemma VerdictIsResponse(actions: seq<Action>, fails: Action -> Option<string>, channels: seq<Channel>)
    ensures Verdict(actions, fails, channels).Respond?
  {
    RanUpToFirstFailing(actions, fails, channels);
  }

  // ---------------------------------------------------------------------------------------
  // The handler

  /** True when the lookup succeeds and none of the calls it leads to throws. */
  predicate AllSucceed(req: Request, env: Env)
  {
    match env.getByUserId(req.userId)
    case Failure(_) => false
    case Success(pref) =>
      var channels := Router.Route(req.importance, req.context, pref.preferredChannels);
      forall a :: a in Plan(req, env.now, channels) ==> env.fails(a).None?
  }

  /**
   * Preferences are fetched first, once, for the request's user; exactly one response is
   * sent, and it is the last event.
   */
  lemma HandlerBrackets(req: Request, env: Env)
    ensures var t := HandlerTrace(req, env);
            && |t| >= 2
            && t[0] == FetchPrefs(req.userId)
            && (forall i :: 0 < i < |t| ==> !t[i].FetchPrefs?)
            && t[|t| - 1].Respond?
            && (forall i :: 0 <= i < |t| - 1 ==> !t[i].Respond?)
  {
    match env.getByUserId(req.userId)
    case Failure(e) =>
    case Success(pref) =>
      var channels := Router.Route(req.importance, req.context, pref.preferredChannels);
      var plan := Plan(req, env.now, channels);
      ExecuteShape(plan, env.fails, channels);
      VerdictIsResponse(plan, env.fails, channels);
      Bracketed(req.userId, Ran(plan, env.fails), Verdict(plan, env.fails, channels));
  }

  /** The shape of a trace that fetches once, makes some calls and then responds once. */
  lemma Bracketed(userId: string, done: seq<Action>, last: Event)
    requires last.Respond?
    ensures var t := [FetchPrefs(userId)] + (Performs(done) + [last]);
            && |t| >= 2
            && t[0] == FetchPrefs(userId)
            && (forall i :: 0 < i < |t| ==> !t[i].FetchPrefs?)
            && t[|t| - 1].Respond?
            && (forall i :: 0 <= i < |t| - 1 ==> !t[i].Respond?)
  {
    var t := [FetchPrefs(userId)] + (Performs(done) + [last]);
    forall i | 0 < i < |t| - 1 ensures t[i] == Perform(done[i - 1]) {
    }
  }

  /**
   * All-or-nothing: when every step succeeds, the calls are exactly the plan for the routed
   * channels and the response is 201 carrying the router's output for the fetched
   * preferences; the response is 201 only then.
   */
  lemma HandlerSucceeds(req: Request, env: Env)
    ensures var t := HandlerTrace(req, env);
            t[|t| - 1].Respond? && (t[|t| - 1].status == 201 <==> AllSucceed(req, env))
    ensures AllSucceed(req, env) ==>
            var pref := env.getByUserId(req.userId).value;
            var channels := Router.Route(req.importance, req.context, pref.preferredChannels);
            HandlerTrace(req, env)
            == [FetchPrefs(req.userId)] + Performs(Plan(req, env.now, channels))
               + [Respond(201, Created(channels))]
  {
    HandlerBrackets(req, env);
    match env.getByUserId(req.userId)
    case Failure(e) =>
    case Success(pref) =>
      var channels := Router.Route(req.importance, req.context, pref.preferredChannels);
      var plan := Plan(req, env.now, channels);
      if AllSucceed(req, env) {
        ExecuteCompletes(plan, env.fails, channels, [FetchPrefs(req.userId)]);
      } else {
        ExecuteStops(plan, env.fails, channels, [FetchPrefs(req.userId)]);
      }
  }

  /** A run in which no call throws makes every call and answers 201 with the channels. */
  lemma ExecuteCompletes(actions: seq<Action>, fails: Action -> Option<string>, channels: seq<Channel>, before: seq<Event>)
    requires forall a :: a in actions ==> fails(a).None?
    ensures before + Execute(actions, fails, channels)
            == before + Performs(actions) + [Respond(201, Created(channels))]
  {
    ExecuteRuns(actions, fails, channels);
    var last := Respond(201, Created(channels));
    assert before + (Performs(actions) + [last]) == before + Performs(actions) + [last];
  }

  /** A lookup that throws is answered with 500 and its message; nothing else is called. */
  lemma HandlerLookupFails(req: Request, env: Env)
    requires env.getByUserId(req.userId).Failure?
    ensures HandlerTrace(req, env)
            == [FetchPrefs(req.userId), Respond(500, Failed(env.getByUserId(req.userId).error))]
  {
  }

  /**
   * When a call throws, the calls stop at it: the sends after it and the save are skipped,
   * and the response is 500 with that call's error message.
   */
  lemma HandlerStepFails(req: Request, env: Env)
    requires env.getByUserId(req.userId).Success? && !AllSucceed(req, env)
    ensures var pref := env.getByUserId(req.userId).value;
            var channels := Router.Route(req.importance, req.context, pref.preferredChannels);
            var plan := Plan(req, env.now, channels);
            exists k :: 0 <= k < |plan|
              && (forall j :: 0 <= j < k ==> env.fails(plan[j]).None?)
              && env.fails(plan[k]).Some?
              && HandlerTrace(req, env)
                 == [FetchPrefs(req.userId)] + Performs(plan[..k + 1])
                    + [Respond(500, Failed(env.fails(plan[k]).value))]
  {
    var pref := env.getByUserId(req.userId).value;
    var channels := Router.Route(req.importance, req.context, pref.preferredChannels);
    ExecuteStops(Plan(req, env.now, channels), env.fails, channels, [FetchPrefs(req.userId)]);
  }

  /** A run in which some call throws stops at the first such call. */
  lemma ExecuteStops(actions: seq<Action>, fails: Action -> Option<string>, channels: seq<Channel>, before: seq<Event>)
    requires exists a :: a in actions && fails(a).Some?
    ensures exists k :: 0 <= k < |actions|
              && (forall j :: 0 <= j < k ==> fails(actions[j]).None?)
              && fails(actions[k]).Some?
              && before + Execute(actions, fails, channels)
                 == before + Performs(actions[..k + 1]) + [Respond(500, Failed(fails(actions[k]).value))]
  {
    ExecuteRuns(actions, fails, channels);
    var k := FirstFailing(actions, fails);
    var a :| a in actions && fails(a).Some?;
    var j :| 0 <= j < |actions| && actions[j] == a;
    assert fails(actions[j]).Some?;
    assert k <= j < |actions|;
    var done := Performs(actions[..k + 1]);
    var last := Respond(500, Failed(fails(actions[k]).value));
    assert before + (done + [last]) == before + done + [last];
  }

  /** Whatever fails, the one response is a 500 without success, and no 201 is ever sent. */
  lemma HandlerFails(req: Request, env: Env)
    requires !AllSucceed(req, env)
    ensures var t := HandlerTrace(req, env);
            && t[|t| - 1].Respond? && t[|t| - 1].status == 500 && !t[|t| - 1].body.Success()
            && (forall i :: 0 <= i < |t| ==> !(t[i].Respond? && t[i].status == 201))
  {
    HandlerBrackets(req, env);
    var t := HandlerTrace(req, env);
    if env.getByUserId(req.userId).Failure? {
      HandlerLookupFails(req, env);
    } else {
      HandlerStepFails(req, env);
    }
  }

  /**
   * For high importance with every channel allowed the router lists sms first, yet email is
   * the first sender called.
   */
  lemma HighSendsEmailBeforeSms(req: Request, env: Env)
    requires req.importance == High
    requires env.getByUserId(req.userId) == Success(DefaultPreference(req.userId))
    requires AllSucceed(req, env)
    ensures var t := HandlerTrace(req, env);
            && t[|t| - 1] == Respond(201, Created([Sms, Email, InApp]))
            && t[1] == Perform(SendEmail(req.userId, req.message, req.context))
            && t[2] == Perform(SendSms(req.userId, req.message, req.context))
            && t[3] == Perform(SendInApp(req.userId, req.message, req.context))
  {
    var channels := Router.Route(High, req.context, DefaultPreference(req.userId).preferredChannels);
    Router.RouteDefaultPreference(High, req.context, req.userId);
    assert channels == [Sms, Email, InApp];
    HandlerSucceeds(req, env);
  }
}
