/**
 The order of requests and responses on one connection: why each response is made, what is written for
 it, and what follows. Everything here is about the causes of the responses so far.
 */
module Exchange {
  import opened Bytes
  import opened Request
  import opened Llhttp
  import Wsgi
  import WsgiWire
  import Head

  /** Why a response is made: a message came to its end (`reset` when no more bytes were received by then),
      an error was left over from an earlier response, or the input cannot be parsed. */
  datatype Cause = Of(event: Event, reset: bool) | Stale(status: int, keepAlive: bool) | Fatal(status: int)

  /** What is written for a cause, in turn, and what follows: `keep` when the connection stays open, `timed`
      when the wait for the next request is timed, and the error left behind, if any. `shut` tells that the
      connection is shut down without waiting for the write. */
  datatype Plan = Plan(writes: seq<seq<byte>>, keep: bool, timed: bool, error: int, shut: bool)

  /** What the connection is set up with. `app` answers the messages so far; `date` is the date of the n-th
      response and `errorText` the server's own response, with a status, to the last of the causes. */
  datatype Setup = Setup(cfg: Head.Config, maxChunkSize: nat, date: nat -> seq<byte>,
                         app: seq<Event> -> (Wsgi.App, Wsgi.BodyKind, seq<Wsgi.Item>),
                         errorText: (seq<Cause>, int) -> seq<byte>)

  const HEAD: seq<byte> := [72, 69, 65, 68]

  predicate IsHead(req: Served) {
    RequestMethod in req.env && req.env[RequestMethod] == HEAD
  }

  function RequestOf(su: Setup, req: Served, reset: bool): Wsgi.Request {
    Wsgi.Request(su.cfg, su.maxChunkSize, req.keepAlive, IsHead(req), IsHead(req) && !reset)
  }

  function KeepAliveOf(e: Event): bool {
    match e
    case Reject(keepAlive) => keepAlive
    case Dispatch(req) => req.keepAlive
  }

  /** The messages among the causes. */
  function Messages(causes: seq<Cause>): (r: seq<Event>)
    ensures |r| <= |causes|
  {
    if causes == [] then []
    else
      var n := |causes| - 1;
      Messages(causes[..n]) + if causes[n].Of? then [causes[n].event] else []
  }

  lemma MessagesSnoc(causes: seq<Cause>, c: Cause)
    ensures Messages(causes + [c]) == Messages(causes) + if c.Of? then [c.event] else []
  {
    assert (causes + [c])[..|causes|] == causes;
  }

  function ErrorPlan(su: Setup, causes: seq<Cause>, status: int, keepAlive: bool, error: int): Plan {
    var keep := keepAlive && su.cfg.allowKeepalive;
    Plan([su.errorText(causes, status)], keep, true, error, !keep)
  }

  /** The app's response to the last message, or the server's own when it cannot be sent. */
  function AppPlan(su: Setup, causes: seq<Cause>, events: seq<Event>, req: Served, reset: bool): (p: Plan)
    ensures p.writes != [] && (|p.writes| > 1 ==> p.error == 0)
  {
    var (app, kind, items) := su.app(events);
    var r := RequestOf(su, req, reset);
    if Wsgi.Servable(r, app, kind, items) then
      var ending := Wsgi.EndingOf(r, app, kind, items);
      Plan(Wsgi.Writes(r, app, su.date(|causes|), kind, items),
           req.keepAlive && su.cfg.allowKeepalive && ending in {Wsgi.Complete, Wsgi.Short},
           ending == Wsgi.Complete, 0, false)
    else
      ErrorPlan(su, causes, 500, req.keepAlive,
                if Wsgi.Broken(kind, items, app.filelike, su.maxChunkSize, Wsgi.DeclaredBy(app.headers)) then 11 else 0)
  }

  /** The plan is what becomes of the app's response, in every order of write results: its writes are made up
      to the first that fails, and when none does the connection is kept, the wait for the next request timed
      and an error left behind just as planned. */
  method CarryOut(su: Setup, causes: seq<Cause>, req: Served, reset: bool, start500: seq<byte>, client: Wsgi.Client,
                  events: seq<Wsgi.Completion>)
    returns (done: Wsgi.Done)
    requires client.Fresh() && client.state != Wsgi.RespSend && !client.inFlight
    requires client.Req() == RequestOf(su, req, reset)
    requires var (app, kind, items) := su.app(Messages(causes));
               client.wsgiBody.kind == kind && client.wsgiBody.rest == items
    requires forall e :: e in events ==> e.status <= 0
    modifies client, client.body, client.bufs, client.wsgiBody
    ensures var p := AppPlan(su, causes, Messages(causes), req, reset);
            var n := |p.writes| - 1;
              && done == (if Wsgi.Through(events, n) && p.keep then Wsgi.KeptAlive else Wsgi.Closing)
              && client.lastChunkTime ==
                   (if Wsgi.Through(events, n) && p.timed then events[n].now else old(client.lastChunkTime))
              && (done == Wsgi.KeptAlive ==> client.error == p.error)
              && (su.errorText(causes, 500) == client.ErrorText(start500, su.date(|causes|)) ==>
                    client.writes == old(client.writes) + p.writes[..1 + Wsgi.Made(events, n)])
  {
    hide Messages, Wsgi.Writes, Wsgi.Servable, Wsgi.EndingOf, Wsgi.Broken, Wsgi.DeclaredBy, Wsgi.Client.Reset;
    hide Wsgi.Made;
    var (app, kind, items) := su.app(Messages(causes));
    Wsgi.BrokenRefused(RequestOf(su, req, reset), app, kind, items);
    done := client.Exchange(app, su.date(|causes|), start500, true, events);
  }

  /** The response to the last of the causes. */
  function PlanFor(su: Setup, causes: seq<Cause>): (p: Plan)
    requires causes != []
    ensures p.writes != []
    ensures |p.writes| > 1 ==> causes[|causes| - 1].Of? && p.error == 0
  {
    match causes[|causes| - 1]
    case Of(Reject(keepAlive), _) => ErrorPlan(su, causes, 417, keepAlive, 417)
    case Of(Dispatch(req), reset) => AppPlan(su, causes, Messages(causes), req, reset)
    case Stale(status, keepAlive) => ErrorPlan(su, causes, status, keepAlive, 0)
    case Fatal(status) => ErrorPlan(su, causes, status, false, 0)
  }

  /** The response to the i-th cause. */
  function PlanAt(su: Setup, causes: seq<Cause>, i: nat): Plan
    requires i < |causes|
  {
    PlanFor(su, causes[..i + 1])
  }

  /** Later causes change nothing about it. */
  lemma PlanAtPrefix(su: Setup, causes: seq<Cause>, m: nat, i: nat)
    requires i < m <= |causes|
    ensures PlanAt(su, causes[..m], i) == PlanAt(su, causes, i)
    ensures i == |causes| - 1 ==> PlanAt(su, causes, i) == PlanFor(su, causes)
  {
    hide PlanFor;
    assert causes[..m][..i + 1] == causes[..i + 1];
    assert causes[..|causes|] == causes;
  }

  /** The error that is left over when the last response is complete: it goes back to a refused expectation
      or to a body that broke before it was sent, and survives responses made for itself. */
  function Leftover(su: Setup, causes: seq<Cause>): int {
    if causes == [] then 0
    else match causes[|causes| - 1]
      case Of(_, _) => PlanFor(su, causes).error
      case Stale(_, _) => Leftover(su, causes[..|causes| - 1])
      case Fatal(_) => 0
  }

  // ---------------------------------------------------------------- what the log of a connection keeps

  /** Each response is the answer to its cause and complete, but the last, which has still `left` to write. */
  predicate Carried(su: Setup, causes: seq<Cause>, wire: seq<seq<seq<byte>>>, left: seq<seq<byte>>) {
    && |wire| == |causes|
    && (forall i :: 0 <= i < |causes| - 1 ==> wire[i] == PlanAt(su, causes, i).writes)
    && (causes != [] ==> wire[|wire| - 1] + left == PlanFor(su, causes).writes && wire[|wire| - 1] != [])
  }

  /** No response follows one after which the connection is not kept. */
  predicate Kept(su: Setup, causes: seq<Cause>) {
    forall i :: 0 <= i < |causes| - 1 ==> PlanAt(su, causes, i).keep
  }

  /** A response that no message asked for is made for the error left over, and does not end the connection. */
  predicate Explained(su: Setup, causes: seq<Cause>) {
    forall i :: 0 <= i < |causes| && causes[i].Stale? ==> Blamed(su, causes[..i], causes[i])
  }

  predicate Blamed(su: Setup, before: seq<Cause>, c: Cause)
    requires c.Stale?
  {
    var error := Leftover(su, before);
    error != 0 && c.status == StatusOf(error) && c.keepAlive && su.cfg.allowKeepalive
  }

  lemma CarriedSnoc(su: Setup, causes: seq<Cause>, wire: seq<seq<seq<byte>>>, c: Cause)
    requires Carried(su, causes, wire, [])
    ensures var p := PlanFor(su, causes + [c]);
              Carried(su, causes + [c], wire + [[p.writes[0]]], p.writes[1..])
  {
    hide PlanFor, PlanAt;
    var all := causes + [c];
    var p := PlanFor(su, all);
    assert all[..|causes|] == causes;
    forall i | 0 <= i < |causes| ensures (wire + [[p.writes[0]]])[i] == PlanAt(su, all, i).writes {
      PlanAtPrefix(su, all, |causes|, i);
      PlanAtPrefix(su, causes, |causes|, i);
      assert wire[i] + [] == wire[i];
    }
  }

  lemma CarriedNext(su: Setup, causes: seq<Cause>, wire: seq<seq<seq<byte>>>, left: seq<seq<byte>>)
    requires Carried(su, causes, wire, left) && left != [] && causes != []
    ensures |wire| == |causes|
    ensures var n := |wire| - 1; Carried(su, causes, wire[n := wire[n] + [left[0]]], left[1..])
    ensures Leftover(su, causes) == 0
  {
    var n := |wire| - 1;
    assert wire[n] + [left[0]] + left[1..] == wire[n] + left;
    assert |PlanFor(su, causes).writes| > 1;
  }

  lemma KeptSnoc(su: Setup, causes: seq<Cause>, c: Cause)
    requires Kept(su, causes) && (causes == [] || PlanFor(su, causes).keep)
    ensures Kept(su, causes + [c])
  {
    hide PlanFor, PlanAt;
    var all := causes + [c];
    assert all[..|causes|] == causes;
    forall i | 0 <= i < |causes| ensures PlanAt(su, all, i).keep {
      PlanAtPrefix(su, all, |causes|, i);
      PlanAtPrefix(su, causes, |causes|, i);
    }
  }

  /** What was kept for all causes was kept for the first of them. */
  lemma KeptBefore(su: Setup, causes: seq<Cause>)
    requires Kept(su, causes) && causes != []
    ensures Kept(su, causes[..|causes| - 1]) && (|causes| > 1 ==> PlanFor(su, causes[..|causes| - 1]).keep)
  {
    hide PlanFor, PlanAt;
    var m := |causes| - 1;
    forall i | 0 <= i < m ensures PlanAt(su, causes[..m], i).keep {
      PlanAtPrefix(su, causes, m, i);
    }
    if m > 0 { PlanAtPrefix(su, causes[..m], m, m - 1); }
  }

  lemma ExplainedSnoc(su: Setup, causes: seq<Cause>, c: Cause)
    requires Explained(su, causes) && (c.Stale? ==> Blamed(su, causes, c))
    ensures Explained(su, causes + [c])
  {
    hide Blamed;
    var all := causes + [c];
    forall i | 0 <= i < |all| && all[i].Stale? ensures Blamed(su, all[..i], all[i]) {
      if i < |causes| {
        assert all[..i] == causes[..i];
      } else {
        assert all[..i] == causes;
      }
    }
  }

  /** Nothing follows input that cannot be parsed. */
  lemma FatalEnds(su: Setup, causes: seq<Cause>)
    ensures causes != [] && causes[|causes| - 1].Fatal? ==> PlanFor(su, causes).shut && !PlanFor(su, causes).keep
  {
  }

  /** The status of the server's own response: all causes but a call of the app have one. */
  function OwnStatus(c: Cause): Option<int> {
    match c
    case Of(Reject(_), _) => Some(417)
    case Of(Dispatch(_), _) => None
    case Stale(status, _) => Some(status)
    case Fatal(status) => Some(status)
  }

  /** Such a response is one write, the text for its status. */
  lemma OwnText(su: Setup, causes: seq<Cause>, wire: seq<seq<seq<byte>>>, left: seq<seq<byte>>, k: nat)
    requires Carried(su, causes, wire, left) && k < |causes| && OwnStatus(causes[k]).Some?
    ensures |wire| == |causes| && wire[k] == [su.errorText(causes[..k + 1], OwnStatus(causes[k]).value)]
  {
    hide PlanFor;
    var n := |wire| - 1;
    var upTo := causes[..k + 1];
    OwnPlan(su, upTo);
    assert upTo[|upTo| - 1] == causes[k];
    if k == n {
      assert upTo == causes && |wire[n] + left| == 1;
      assert wire[n] + [] == wire[n];
    }
  }

  lemma OwnPlan(su: Setup, causes: seq<Cause>)
    requires causes != [] && OwnStatus(causes[|causes| - 1]).Some?
    ensures PlanFor(su, causes).writes == [su.errorText(causes, OwnStatus(causes[|causes| - 1]).value)]
  {
    hide Messages, AppPlan;
  }

  /** A response that no message asked for keeps the connection open and the error left over. */
  lemma StaleKept(su: Setup, causes: seq<Cause>, c: Cause)
    requires c.Stale? && Blamed(su, causes, c)
    ensures var p := PlanFor(su, causes + [c]); p.keep && !p.shut && |p.writes| == 1
    ensures Leftover(su, causes + [c]) == Leftover(su, causes)
  {
    assert (causes + [c])[..|causes|] == causes;
  }

  /** So such a response is never the last one of a connection that the server ends. */
  lemma LastStale(su: Setup, causes: seq<Cause>)
    requires Explained(su, causes) && causes != [] && causes[|causes| - 1].Stale?
    ensures PlanFor(su, causes).keep
  {
    var n := |causes| - 1;
    StaleKept(su, causes[..n], causes[n]);
    assert causes == causes[..n] + [causes[n]];
  }

  // ---------------------------------------------------------------- responses nothing asked for

  /** The cause leaves an error behind by itself. */
  predicate Leaves(su: Setup, causes: seq<Cause>, j: nat)
    requires j < |causes|
  {
    causes[j].Of? && PlanAt(su, causes, j).error != 0
  }

  /** An error is left over exactly when some message left one, and every response since was made for it. */
  lemma {:induction false} LeftoverHasSource(su: Setup, causes: seq<Cause>)
    ensures Leftover(su, causes) != 0 <==>
            exists j :: 0 <= j < |causes| && Leaves(su, causes, j) && forall k :: j < k < |causes| ==> causes[k].Stale?
  {
    hide PlanFor, PlanAt;
    if causes != [] {
      var n := |causes| - 1;
      var before := causes[..n];
      PlanAtPrefix(su, causes, |causes|, n);
      forall j | 0 <= j < n ensures Leaves(su, causes, j) <==> Leaves(su, before, j) {
        PlanAtPrefix(su, causes, n, j);
      }
      if causes[n].Stale? {
        LeftoverHasSource(su, before);
        if Leftover(su, causes) != 0 {
          var j :| 0 <= j < n && Leaves(su, before, j) && forall k :: j < k < n ==> before[k].Stale?;
          assert Leaves(su, causes, j);
        }
        if j :| 0 <= j < |causes| && Leaves(su, causes, j) && forall k :: j < k < |causes| ==> causes[k].Stale? {
          assert j < n && Leaves(su, before, j);
        }
      } else if Leftover(su, causes) != 0 {
        assert Leaves(su, causes, n);
      }
    }
  }

  /** Which messages leave an error, and which: those whose expectation is refused, and those whose body broke
      before it could be sent. */
  lemma LeavesIs(su: Setup, causes: seq<Cause>, j: nat)
    requires j < |causes| && causes[j].Of?
    ensures var error := PlanAt(su, causes, j).error;
            match causes[j].event
            case Reject(_) => error == 417
            case Dispatch(req) =>
              var (app, kind, items) := su.app(Messages(causes[..j + 1]));
              if Wsgi.Broken(kind, items, app.filelike, su.maxChunkSize, Wsgi.DeclaredBy(app.headers)) then error == 11
              else error == 0
  {
    hide Messages;
    var upTo := causes[..j + 1];
    assert upTo[|upTo| - 1] == causes[j];
    if causes[j].event.Dispatch? {
      var (app, kind, items) := su.app(Messages(upTo));
      Wsgi.BrokenRefused(RequestOf(su, causes[j].event.req, causes[j].reset), app, kind, items);
    }
  }

  /** What is left over is what the message left that it goes back to. */
  lemma {:induction false} LeftoverFrom(su: Setup, causes: seq<Cause>, j: nat)
    requires j < |causes| && causes[j].Of? && forall k :: j < k < |causes| ==> causes[k].Stale?
    ensures Leftover(su, causes) == PlanAt(su, causes, j).error
    decreases |causes|
  {
    hide PlanFor, PlanAt;
    var n := |causes| - 1;
    if j < n {
      LeftoverFrom(su, causes[..n], j);
      PlanAtPrefix(su, causes, n, j);
    } else {
      PlanAtPrefix(su, causes, |causes|, n);
    }
  }

  /** A response that no message asked for says 417 again, when an expectation was refused before it, or 400,
      when a body broke. */
  lemma StaleStatus(su: Setup, causes: seq<Cause>, i: nat)
    requires Explained(su, causes) && i < |causes| && causes[i].Stale?
    ensures exists j :: 0 <= j < i && Leaves(su, causes, j) && (forall k :: j < k < i ==> causes[k].Stale?)
                        && causes[i].status == if causes[j].event.Reject? then 417 else 400
  {
    hide PlanFor, PlanAt, Messages;
    var before := causes[..i];
    LeftoverHasSource(su, before);
    var j :| 0 <= j < i && Leaves(su, before, j) && forall k :: j < k < i ==> before[k].Stale?;
    LeftoverFrom(su, before, j);
    LeavesIs(su, before, j);
    PlanAtPrefix(su, causes, i, j);
    assert Leaves(su, causes, j) && forall k :: j < k < i ==> causes[k].Stale?;
  }

  /** Where a response stands among the messages: it answers the message of its own number exactly when no
      response before it was made without one. */
  lemma {:induction false} PositionOf(causes: seq<Cause>, k: nat)
    requires k < |causes| && causes[k].Of?
    ensures var n := |Messages(causes[..k])|;
              && n <= k && n < |Messages(causes)| && causes[k].event == Messages(causes)[n]
              && (n == k <==> forall i :: 0 <= i < k ==> causes[i].Of?)
    decreases |causes|
  {
    var n := |causes| - 1;
    if k < n {
      assert causes[..n][..k] == causes[..k] && forall i :: 0 <= i <= k ==> causes[..n][i] == causes[i];
      PositionOf(causes[..n], k);
    } else {
      CountMessages(causes[..k]);
    }
  }

  lemma {:induction false} CountMessages(causes: seq<Cause>)
    ensures |Messages(causes)| == |causes| <==> forall i :: 0 <= i < |causes| ==> causes[i].Of?
  {
    if causes != [] {
      var n := |causes| - 1;
      CountMessages(causes[..n]);
      assert forall i :: 0 <= i < n ==> causes[..n][i] == causes[i];
    }
  }

  // ---------------------------------------------------------------- what the history decides

  /** Whether the connection is kept after the response to the last message: the messages decide. */
  function Keeps(su: Setup, events: seq<Event>): bool
    requires events != []
  {
    KeepAliveOf(events[|events| - 1]) && su.cfg.allowKeepalive &&
    match events[|events| - 1]
    case Reject(_) => true
    case Dispatch(req) =>
      var (app, kind, items) := su.app(events);
      Wsgi.EndingOf(RequestOf(su, req, true), app, kind, items) in {Wsgi.Complete, Wsgi.Short}
  }

  lemma KeepsIs(su: Setup, causes: seq<Cause>)
    requires causes != [] && causes[|causes| - 1].Of?
    ensures Messages(causes) != [] && PlanFor(su, causes).keep == Keeps(su, Messages(causes))
  {
    hide Messages, Wsgi.Servable, Wsgi.EndingOf, Wsgi.Writes, Wsgi.Broken, Wsgi.DeclaredBy;
    var last := causes[|causes| - 1];
    MessagesSnoc(causes[..|causes| - 1], last);
    assert causes == causes[..|causes| - 1] + [last];
    if last.event.Dispatch? {
      var (app, kind, items) := su.app(Messages(causes));
      ResetIrrelevant(su, last.event.req, last.reset, app, kind, items);
      Wsgi.BrokenRefused(RequestOf(su, last.event.req, true), app, kind, items);
    }
  }

  lemma ResetIrrelevant(su: Setup, req: Served, reset: bool, app: Wsgi.App, kind: Wsgi.BodyKind, items: seq<Wsgi.Item>)
    ensures Wsgi.Servable(RequestOf(su, req, reset), app, kind, items)
            == Wsgi.Servable(RequestOf(su, req, true), app, kind, items)
    ensures Wsgi.EndingOf(RequestOf(su, req, reset), app, kind, items)
            == Wsgi.EndingOf(RequestOf(su, req, true), app, kind, items)
  {
  }

  /** Every message but the last was answered with a response after which the connection is kept, and the
      last too when all responses were. */
  lemma {:induction false} KeptMessages(su: Setup, causes: seq<Cause>, n: nat)
    requires Kept(su, causes) && 1 <= n <= |Messages(causes)|
    requires n < |Messages(causes)| || PlanFor(su, causes).keep || !causes[|causes| - 1].Of?
    ensures Messages(causes)[..n] != [] && Keeps(su, Messages(causes)[..n])
    decreases |causes|
  {
    hide PlanFor, PlanAt, Keeps, Kept;
    var m := |causes| - 1;
    var before, last := causes[..m], causes[m];
    MessagesSnoc(before, last);
    assert causes == before + [last];
    if n <= |Messages(before)| {
      KeptBefore(su, causes);
      assert before != [];
      KeptMessages(su, before, n);
      assert Messages(causes)[..n] == Messages(before)[..n];
    } else {
      assert Messages(causes)[..n] == Messages(causes);
      KeepsIs(su, causes);
    }
  }

  /** How many of `events`, beyond the first n, an app gets: they end with the first after which the
      connection is not kept. */
  function UpTo(su: Setup, events: seq<Event>, n: nat): (k: nat)
    requires n <= |events|
    ensures n <= k <= |events|
    decreases |events| - n
  {
    if n == |events| || (n > 0 && !Keeps(su, events[..n])) then n else UpTo(su, events, n + 1)
  }

  lemma {:induction false} UpToIs(su: Setup, events: seq<Event>, n: nat, k: nat)
    requires n <= k <= |events| && forall i :: n <= i < k && i > 0 ==> Keeps(su, events[..i])
    ensures k <= UpTo(su, events, n)
    ensures k == |events| || (k > 0 && !Keeps(su, events[..k])) ==> UpTo(su, events, n) == k
    decreases k - n
  {
    if n < k {
      UpToIs(su, events, n + 1, k);
    }
  }

  /** An error is left over only behind a message, and when the connection is kept that one asked for it. */
  lemma {:induction false} LeftoverKept(su: Setup, causes: seq<Cause>)
    requires Kept(su, causes) && Leftover(su, causes) != 0 && PlanFor(su, causes).keep
    ensures Messages(causes) != []
    ensures KeepAliveOf(Messages(causes)[|Messages(causes)| - 1]) && su.cfg.allowKeepalive
  {
    hide Keeps, Kept, PlanFor;
    var m := |causes| - 1;
    if causes[m].Of? {
      KeepsIs(su, causes);
      KeepsMeans(su, Messages(causes));
    } else {
      KeptBefore(su, causes);
      MessagesSnoc(causes[..m], causes[m]);
      assert causes == causes[..m] + [causes[m]];
      LeftoverKept(su, causes[..m]);
    }
  }

  lemma KeepsMeans(su: Setup, events: seq<Event>)
    requires events != [] && Keeps(su, events)
    ensures KeepAliveOf(events[|events| - 1]) && su.cfg.allowKeepalive
  {
  }

  // ---------------------------------------------------------------- HEAD

  /** The response to a message is the same whether or not more bytes were received behind it, unless it is
      the app's response to a HEAD request that does not declare a length of 0. */
  lemma BufferShows(su: Setup, causes: seq<Cause>, req: Served)
    requires var (app, kind, items) := su.app(Messages(causes) + [Dispatch(req)]);
               Wsgi.Servable(RequestOf(su, req, true), app, kind, items)
    ensures var (app, kind, items) := su.app(Messages(causes) + [Dispatch(req)]);
              PlanFor(su, causes + [Of(Dispatch(req), true)]) == PlanFor(su, causes + [Of(Dispatch(req), false)])
              <==> !IsHead(req) || Wsgi.DeclaredBy(app.headers) == Wsgi.Length(0)
  {
    hide Messages, Wsgi.Writes, Wsgi.EndingOf, Wsgi.Servable, Wsgi.DeclaredBy;
    var events := Messages(causes) + [Dispatch(req)];
    var (app, kind, items) := su.app(events);
    MessagesSnoc(causes, Of(Dispatch(req), true));
    MessagesSnoc(causes, Of(Dispatch(req), false));
    ResetIrrelevant(su, req, false, app, kind, items);
    if IsHead(req) {
      WsgiWire.HeadDependsOnBuffer(RequestOf(su, req, true), app, su.date(|causes| + 1), kind, items);
    }
  }
}
