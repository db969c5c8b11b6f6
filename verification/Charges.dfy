/** The REST route charges the limiter twice for one request: in `Limiter.Middleware`
    (ratelimit/limiter.go:103-123) and again in `handler.Execute` (handler/execute.go:49-59). */
module Charges {
  import opened Options
  import opened Limiters
  import opened LimiterHistory
  import opened DockerClient
  import opened Fibers

  /** Both places use the user, or the address if there is none. */
  function RateKey(userId: string, remoteAddr: string): string {
    if userId == "" then remoteAddr else userId
  }

  // ----- one request, undisturbed

  datatype RestRequest = RestRequest(
    userId: string,
    remoteAddr: string,
    isPost: bool,
    bodyRead: bool,
    jsonOk: bool,
    language: string,
    files: nat,
    code: string)

  datatype Clock = Clock(now: int, today: int)

  /** What `Execute` checks before it charges; `None` is no objection. */
  function Objection(r: RestRequest): Option<int> {
    if !r.isPost then Some(405)
    else if !r.bodyRead || !r.jsonOk || r.language == "" || (r.files == 0 && r.code == "") then Some(400)
    else None
  }

  /** The table after charging `key`, and the answer. */
  function Charged(cfg: Config, t: Table, key: string, at: Clock): (Table, bool) {
    var (record, ok) := Decide(cfg, Find(t, key), at.now, at.today);
    (t[key := record], ok)
  }

  /** The route, from the middleware to the response.  `slot` is what `AcquireContext` returned; the
      slot's life is part of `Runner`.  A request that gets past the second charge has paid twice, and
      no outcome leaves a container behind. */
  method Serve(limiter: Limiter, docker: Docker, r: RestRequest, first: Clock, second: Clock, slot: bool, fault: Fault,
               exitCode: int)
    returns (status: int, units: nat)
    requires limiter.Valid() && docker.Valid()
    modifies limiter, limiter.keys.Values, docker
    ensures limiter.Valid() && docker.Valid() && docker.live == old(docker.live)
    ensures var key := if r.userId == "" then r.remoteAddr else r.userId;
            var (t1, ok1) := Charged(limiter.cfg, old(limiter.View()), key, first);
            var (t2, ok2) := Charged(limiter.cfg, t1, key, second);
            if !ok1 then status == 429 && units == 0 && limiter.View() == t1
            else if !r.isPost then status == 405 && units == 1 && limiter.View() == t1
            else if !r.bodyRead || !r.jsonOk || r.language == "" || (r.files == 0 && r.code == "") then
              status == 400 && units == 1 && limiter.View() == t1
            else if !ok2 then status == 429 && units == 1 && limiter.View() == t2
            else && units == 2 && limiter.View() == t2
                 && status == if !slot then 503 else if fault == NoFault || fault == ImageFault then 200 else 500
  {
    hide Decide;
    units := 0;
    var key := if r.userId == "" then r.remoteAddr else r.userId;
    var ok := limiter.Allow(key, first.now, first.today);
    if !ok {
      return 429, units;
    }
    units := units + 1;
    if !r.isPost {
      return 405, units;
    }
    if !r.bodyRead {
      return 400, units;
    }
    if !r.jsonOk {
      return 400, units;
    }
    if r.language == "" {
      return 400, units;
    }
    if r.files == 0 && r.code == "" {
      return 400, units;
    }
    ok := limiter.Allow(key, second.now, second.today);
    if !ok {
      return 429, units;
    }
    units := units + 1;
    status := Execute(docker, slot, fault, exitCode);
  }

  /** From the slot to the response (lines 61-86). */
  method Execute(docker: Docker, slot: bool, fault: Fault, exitCode: int) returns (status: int)
    requires docker.Valid()
    modifies docker
    ensures docker.Valid() && docker.live == old(docker.live)
    ensures status == if !slot then 503 else if fault == NoFault || fault == ImageFault then 200 else 500
  {
    if !slot {
      return 503;
    }
    var response := docker.RunNonInteractive(fault, exitCode);
    if response.None? {
      return 500;
    }
    return 200;
  }

  // ----- all requests, interleaved

  datatype Stage = InMiddleware | InHandler

  /** Where a request is; `Reporting` fills in the rate headers. */
  datatype Pc =
    | AtMiddleware
    | Reporting(ok: bool)
    | Validating
    | AtHandler
    | Executing
    | TurnedAway(stage: Stage)
    | Objected(status: int)
    | Answered(status: int)

  /** `charges` holds the positions of the request's charges in the history; the program stores none. */
  datatype Client = Client(request: RestRequest, pc: Pc, charges: map<Stage, nat>)

  /** Why a call of the history was made: a charge for a request, or anything else. */
  datatype Cause = ChargeFor(req: nat, stage: Stage) | Unrelated

  /** The limiter's table, the requests under way or answered, and the limiter's calls so far. */
  datatype Api = Api(table: Table, clients: map<nat, Client>, history: History, causes: seq<Cause>)

  datatype Turn =
    | Arrive(id: nat, request: RestRequest)
    | Advance(id: nat, at: Clock)
    | Finish(id: nat, status: int)
    | Elsewhere(op: Op)

  function KeyOf(client: Client): string {
    RateKey(client.request.userId, client.request.remoteAddr)
  }

  /** The limiter is called. */
  function Called(cfg: Config, a: Api, op: Op, cause: Cause): Api {
    a.(table := Effect(cfg, a.table, op, true), history := a.history + [op], causes := a.causes + [cause])
  }

  /** `Allow` is called for request `id` at `stage`, which moves to `pc`. */
  function ChargedAt(cfg: Config, a: Api, id: nat, stage: Stage, at: Clock, pc: Pc): Api
    requires id in a.clients
  {
    var client := a.clients[id];
    Called(cfg, a, Ask(KeyOf(client), at.now, at.today), ChargeFor(id, stage))
    .(clients := a.clients[id := client.(pc := pc, charges := client.charges[stage := |a.history|])])
  }

  /** One step of the route: the middleware's charge, its headers, the validation, the handler's charge. */
  function AdvanceRequest(cfg: Config, a: Api, id: nat, at: Clock): Option<Api>
    requires id in a.clients
  {
    var client := a.clients[id];
    var granted := Decide(cfg, Find(a.table, KeyOf(client)), at.now, at.today).1;
    match client.pc
    case AtMiddleware => Some(ChargedAt(cfg, a, id, InMiddleware, at, Reporting(granted)))
    case Reporting(ok) =>
      Some(Called(cfg, a, Query(KeyOf(client), at.now, at.today), Unrelated)
           .(clients := a.clients[id := client.(pc := if ok then Validating else TurnedAway(InMiddleware))]))
    case Validating =>
      var pc := match Objection(client.request) case None => AtHandler case Some(status) => Objected(status);
      Some(a.(clients := a.clients[id := client.(pc := pc)]))
    case AtHandler =>
      Some(ChargedAt(cfg, a, id, InHandler, at, if granted then Executing else TurnedAway(InHandler)))
    case _ => None
  }

  function ApiNext(cfg: Config, a: Api, turn: Turn): Option<Api> {
    match turn
    case Arrive(id, request) =>
      if id in a.clients then None else Some(a.(clients := a.clients[id := Client(request, AtMiddleware, map[])]))
    case Advance(id, at) => if id in a.clients then AdvanceRequest(cfg, a, id, at) else None
    case Finish(id, status) =>
      if id in a.clients && a.clients[id].pc.Executing? && status in {200, 500, 503} then
        Some(a.(clients := a.clients[id := a.clients[id].(pc := Answered(status))]))
      else None
    case Elsewhere(op) => Some(Called(cfg, a, op, Unrelated))
  }

  /** A run of the server: requests, the sweep and other callers of the limiter in any order. */
  ghost predicate Service(cfg: Config, ws: seq<Api>, turns: seq<Turn>) {
    && |ws| == |turns| + 1 && ws[0] == Api(map[], map[], [], [])
    && forall i | 0 <= i < |turns| :: ApiNext(cfg, ws[i], turns[i]) == Some(ws[i + 1])
  }

  // ----- what a request has paid

  /** The limiter's answer to a request's charge at `stage`, if the request has got that far. */
  function Answer(pc: Pc, stage: Stage): Option<bool> {
    match stage
    case InMiddleware => (
      match pc
      case AtMiddleware => None
      case Reporting(ok) => Some(ok)
      case TurnedAway(at) => Some(at.InHandler?)
      case _ => Some(true))
    case InHandler => (
      match pc
      case TurnedAway(at) => if at.InHandler? then Some(false) else None
      case Executing => Some(true)
      case Answered(_) => Some(true)
      case _ => None)
  }

  predicate SameAnswers(pc: Pc, pc': Pc) {
    Answer(pc, InMiddleware) == Answer(pc', InMiddleware) && Answer(pc, InHandler) == Answer(pc', InHandler)
  }

  /** Call `i` of the history is request `id`'s charge at `stage`, with the answer `ok`. */
  predicate IsCharge(cfg: Config, h: History, causes: seq<Cause>, i: nat, id: nat, stage: Stage, key: string, ok: bool)
    requires |causes| == |h|
  {
    i < |h| && causes[i] == ChargeFor(id, stage) && h[i].Ask? && h[i].key == key && Granted(cfg, h, i, true) == ok
  }

  predicate StageOk(cfg: Config, a: Api, id: nat, stage: Stage)
    requires |a.causes| == |a.history| && id in a.clients
  {
    var client := a.clients[id];
    match Answer(client.pc, stage)
    case None => stage !in client.charges
    case Some(ok) =>
      stage in client.charges && IsCharge(cfg, a.history, a.causes, client.charges[stage], id, stage, KeyOf(client), ok)
  }

  predicate ClientOk(cfg: Config, a: Api, id: nat)
    requires |a.causes| == |a.history| && id in a.clients
  {
    StageOk(cfg, a, id, InMiddleware) && StageOk(cfg, a, id, InHandler)
  }

  /** Every charge in the log is on the books of the request it is for. */
  predicate OnTheBooks(a: Api, i: nat)
    requires i < |a.causes|
  {
    match a.causes[i]
    case Unrelated => true
    case ChargeFor(req, stage) =>
      req in a.clients && stage in a.clients[req].charges && a.clients[req].charges[stage] == i
  }

  predicate BooksOk(a: Api) {
    forall i | 0 <= i < |a.causes| :: OnTheBooks(a, i)
  }

  predicate LogOk(cfg: Config, a: Api) {
    |a.causes| == |a.history| && a.table == After(cfg, a.history, |a.history|, true)
  }

  ghost predicate ApiInv(cfg: Config, a: Api) {
    LogOk(cfg, a) && BooksOk(a) && forall id | id in a.clients :: ClientOk(cfg, a, id)
  }

  lemma ChargeStands(cfg: Config, h: History, causes: seq<Cause>, op: Op, cause: Cause, i: nat, id: nat, stage: Stage,
                     key: string, ok: bool)
    requires |causes| == |h| && IsCharge(cfg, h, causes, i, id, stage, key, ok)
    ensures IsCharge(cfg, h + [op], causes + [cause], i, id, stage, key, ok)
  {
    hide Decide;
    PastStands(cfg, h, h + [op], i, true);
  }

  lemma CallKeepsLog(cfg: Config, a: Api, op: Op, cause: Cause)
    requires LogOk(cfg, a)
    ensures LogOk(cfg, Called(cfg, a, op, cause))
  {
    hide Effect;
    PastStands(cfg, a.history, a.history + [op], |a.history|, true);
  }

  lemma CallKeepsClient(cfg: Config, a: Api, op: Op, cause: Cause, id: nat)
    requires |a.causes| == |a.history| && id in a.clients && ClientOk(cfg, a, id)
    ensures ClientOk(cfg, Called(cfg, a, op, cause), id)
  {
    hide Effect, IsCharge;
    var client := a.clients[id];
    forall stage | stage in client.charges && Answer(client.pc, stage).Some?
      ensures var ok := Answer(client.pc, stage).value; var i := client.charges[stage];
              IsCharge(cfg, a.history, a.causes, i, id, stage, KeyOf(client), ok) ==>
              IsCharge(cfg, a.history + [op], a.causes + [cause], i, id, stage, KeyOf(client), ok)
    {
      var ok := Answer(client.pc, stage).value;
      if IsCharge(cfg, a.history, a.causes, client.charges[stage], id, stage, KeyOf(client), ok) {
        ChargeStands(cfg, a.history, a.causes, op, cause, client.charges[stage], id, stage, KeyOf(client), ok);
      }
    }
  }

  lemma CallKeepsInv(cfg: Config, a: Api, op: Op)
    requires ApiInv(cfg, a)
    ensures ApiInv(cfg, Called(cfg, a, op, Unrelated))
  {
    hide ClientOk, Effect, LogOk;
    var a' := Called(cfg, a, op, Unrelated);
    CallKeepsLog(cfg, a, op, Unrelated);
    assert |a.causes| == |a.history| by { Aligned(cfg, a); }
    forall id | id in a.clients
      ensures ClientOk(cfg, a', id)
    {
      CallKeepsClient(cfg, a, op, Unrelated, id);
    }
    forall i | 0 <= i < |a'.causes|
      ensures OnTheBooks(a', i)
    {
      assert i < |a.causes| ==> OnTheBooks(a, i);
    }
  }

  lemma Aligned(cfg: Config, a: Api)
    requires LogOk(cfg, a)
    ensures |a.causes| == |a.history|
  {
  }

  /** The books after a charge. */
  lemma ChargeKeepsBooks(cfg: Config, a: Api, id: nat, stage: Stage, at: Clock, pc: Pc)
    requires BooksOk(a) && |a.causes| == |a.history| && id in a.clients && stage !in a.clients[id].charges
    ensures BooksOk(ChargedAt(cfg, a, id, stage, at, pc))
  {
    hide Effect;
    var a' := ChargedAt(cfg, a, id, stage, at, pc);
    forall i | 0 <= i < |a'.causes|
      ensures OnTheBooks(a', i)
    {
      assert i < |a.causes| ==> OnTheBooks(a, i);
    }
  }

  /** The request that was charged. */
  lemma ChargeKeepsPayer(cfg: Config, a: Api, id: nat, stage: Stage, at: Clock, pc: Pc)
    requires LogOk(cfg, a) && id in a.clients && ClientOk(cfg, a, id)
    requires var granted := Decide(cfg, Find(a.table, KeyOf(a.clients[id])), at.now, at.today).1;
             && Answer(pc, stage) == Some(granted)
             && forall s: Stage | s != stage :: Answer(pc, s) == Answer(a.clients[id].pc, s)
    ensures ClientOk(cfg, ChargedAt(cfg, a, id, stage, at, pc), id)
  {
    hide Decide, Effect, Answer;
    var client := a.clients[id];
    var op, cause, n := Ask(KeyOf(client), at.now, at.today), ChargeFor(id, stage), |a.history|;
    PastStands(cfg, a.history, a.history + [op], n, true);
    assert IsCharge(cfg, a.history + [op], a.causes + [cause], n, id, stage, KeyOf(client), Answer(pc, stage).value);
    CallKeepsClient(cfg, a, op, cause, id);
  }

  lemma ChargeKeepsInv(cfg: Config, a: Api, id: nat, stage: Stage, at: Clock, pc: Pc)
    requires ApiInv(cfg, a) && id in a.clients && stage !in a.clients[id].charges
    requires var granted := Decide(cfg, Find(a.table, KeyOf(a.clients[id])), at.now, at.today).1;
             && Answer(pc, stage) == Some(granted)
             && forall s: Stage | s != stage :: Answer(pc, s) == Answer(a.clients[id].pc, s)
    ensures ApiInv(cfg, ChargedAt(cfg, a, id, stage, at, pc))
  {
    hide ClientOk, Effect, LogOk, BooksOk, Decide, Answer;
    var a', op := ChargedAt(cfg, a, id, stage, at, pc), Ask(KeyOf(a.clients[id]), at.now, at.today);
    Aligned(cfg, a);
    CallKeepsLog(cfg, a, op, ChargeFor(id, stage));
    SameLog(cfg, Called(cfg, a, op, ChargeFor(id, stage)), a');
    ChargeKeepsBooks(cfg, a, id, stage, at, pc);
    ChargeKeepsPayer(cfg, a, id, stage, at, pc);
    forall k | k in a.clients && k != id
      ensures ClientOk(cfg, a', k)
    {
      CallKeepsClient(cfg, a, op, ChargeFor(id, stage), k);
      SameClient(cfg, Called(cfg, a, op, ChargeFor(id, stage)), a', k);
    }
  }

  lemma SameLog(cfg: Config, a: Api, a': Api)
    requires a' == a.(clients := a'.clients)
    ensures LogOk(cfg, a') == LogOk(cfg, a)
  {
  }

  /** Only where a request stands in the log, and its answers so far, matter. */
  lemma SameClient(cfg: Config, a: Api, a': Api, id: nat)
    requires a' == a.(clients := a'.clients) && |a.causes| == |a.history| && id in a.clients && id in a'.clients
    requires a'.clients[id] == a.clients[id].(pc := a'.clients[id].pc)
    requires SameAnswers(a'.clients[id].pc, a.clients[id].pc)
    ensures ClientOk(cfg, a', id) == ClientOk(cfg, a, id)
  {
    hide IsCharge;
  }

  lemma MoveKeepsInv(cfg: Config, a: Api, id: nat, pc: Pc)
    requires ApiInv(cfg, a) && id in a.clients && SameAnswers(pc, a.clients[id].pc)
    ensures ApiInv(cfg, a.(clients := a.clients[id := a.clients[id].(pc := pc)]))
  {
    hide ClientOk, LogOk, SameAnswers;
    var a' := a.(clients := a.clients[id := a.clients[id].(pc := pc)]);
    Aligned(cfg, a);
    SameLog(cfg, a, a');
    forall k | k in a.clients
      ensures ClientOk(cfg, a', k)
    {
      assert SameAnswers(a'.clients[k].pc, a.clients[k].pc) by { Reflexive(a.clients[k].pc); }
      SameClient(cfg, a, a', k);
    }
    forall i | 0 <= i < |a'.causes|
      ensures OnTheBooks(a', i)
    {
      assert OnTheBooks(a, i);
    }
  }

  lemma Reflexive(pc: Pc)
    ensures SameAnswers(pc, pc)
  {
  }

  lemma ArrivalKeepsInv(cfg: Config, a: Api, id: nat, request: RestRequest)
    requires ApiInv(cfg, a) && id !in a.clients
    ensures ApiInv(cfg, a.(clients := a.clients[id := Client(request, AtMiddleware, map[])]))
  {
    hide LogOk;
    var a' := a.(clients := a.clients[id := Client(request, AtMiddleware, map[])]);
    Aligned(cfg, a);
    SameLog(cfg, a, a');
    forall k | k in a.clients
      ensures ClientOk(cfg, a', k)
    {
      SameClient(cfg, a, a', k);
    }
    forall i | 0 <= i < |a'.causes|
      ensures OnTheBooks(a', i)
    {
      assert OnTheBooks(a, i);
    }
  }

  lemma AdvanceKeepsInv(cfg: Config, a: Api, id: nat, at: Clock)
    requires ApiInv(cfg, a) && id in a.clients && AdvanceRequest(cfg, a, id, at).Some?
    ensures ApiInv(cfg, AdvanceRequest(cfg, a, id, at).value)
  {
    hide LogOk, BooksOk, Decide, Effect, IsCharge;
    Aligned(cfg, a);
    var client := a.clients[id];
    assert ClientOk(cfg, a, id);
    var granted := Decide(cfg, Find(a.table, KeyOf(client)), at.now, at.today).1;
    match client.pc
    case AtMiddleware => ChargeKeepsInv(cfg, a, id, InMiddleware, at, Reporting(granted));
    case Reporting(ok) =>
      var op := Query(KeyOf(client), at.now, at.today);
      CallKeepsInv(cfg, a, op);
      MoveKeepsInv(cfg, Called(cfg, a, op, Unrelated), id, if ok then Validating else TurnedAway(InMiddleware));
    case Validating =>
      var next := match Objection(client.request) case None => AtHandler case Some(status) => Objected(status);
      MoveKeepsInv(cfg, a, id, next);
    case AtHandler =>
      ChargeKeepsInv(cfg, a, id, InHandler, at, if granted then Executing else TurnedAway(InHandler));
  }

  lemma TurnKeepsInv(cfg: Config, a: Api, turn: Turn)
    requires ApiInv(cfg, a) && ApiNext(cfg, a, turn).Some?
    ensures ApiInv(cfg, ApiNext(cfg, a, turn).value)
  {
    hide ApiInv, AdvanceRequest, Called;
    match turn
    case Arrive(id, request) => ArrivalKeepsInv(cfg, a, id, request);
    case Finish(id, status) => MoveKeepsInv(cfg, a, id, Answered(status));
    case Elsewhere(op) => CallKeepsInv(cfg, a, op);
    case Advance(id, at) => AdvanceKeepsInv(cfg, a, id, at);
  }

  lemma {:induction false} ServiceAlways(cfg: Config, ws: seq<Api>, turns: seq<Turn>, i: nat)
    requires Service(cfg, ws, turns) && i < |ws|
    ensures ApiInv(cfg, ws[i])
    decreases i
  {
    hide ApiNext;
    if i > 0 {
      ServiceAlways(cfg, ws, turns, i - 1);
      assert ApiNext(cfg, ws[i - 1], turns[i - 1]) == Some(ws[i - 1 + 1]);
      TurnKeepsInv(cfg, ws[i - 1], turns[i - 1]);
    }
  }

  // ----- what a request is told

  /** The request is a POST with a readable JSON body that names a language and carries a program. */
  predicate IsRunnable(r: RestRequest) {
    r.isPost && r.bodyRead && r.jsonOk && r.language != "" && (r.files > 0 || r.code != "")
  }

  predicate ToldOk(client: Client) {
    match client.pc
    case Objected(status) => !IsRunnable(client.request) && status == if client.request.isPost then 400 else 405
    case AtHandler => IsRunnable(client.request)
    case Executing => IsRunnable(client.request)
    case Answered(status) => IsRunnable(client.request) && status in {200, 500, 503}
    case TurnedAway(stage) => stage.InHandler? ==> IsRunnable(client.request)
    case _ => true
  }

  lemma ToldStep(cfg: Config, a: Api, turn: Turn)
    requires ApiNext(cfg, a, turn).Some? && forall id | id in a.clients :: ToldOk(a.clients[id])
    ensures var a' := ApiNext(cfg, a, turn).value; forall id | id in a'.clients :: ToldOk(a'.clients[id])
  {
    hide Decide, Effect;
  }

  /** In every interleaving, a request gets past the validation exactly if it can be run; otherwise it is told
      405 for a wrong method and 400 for the rest. */
  lemma ObjectionsAreExact(cfg: Config, ws: seq<Api>, turns: seq<Turn>, i: nat, id: nat)
    requires Service(cfg, ws, turns) && i < |ws| && id in ws[i].clients
    ensures var r, pc := ws[i].clients[id].request, ws[i].clients[id].pc;
            var runnable := r.isPost && r.bodyRead && r.jsonOk && r.language != "" && (r.files > 0 || r.code != "");
            && (pc.Objected? ==> !runnable && pc.status == if r.isPost then 400 else 405)
            && (pc.AtHandler? || pc.Executing? || pc.Answered? || pc == TurnedAway(InHandler) ==> runnable)
  {
    AllTold(cfg, ws, turns, i);
    assert ToldOk(ws[i].clients[id]);
  }

  lemma {:induction false} AllTold(cfg: Config, ws: seq<Api>, turns: seq<Turn>, i: nat)
    requires Service(cfg, ws, turns) && i < |ws|
    ensures forall id | id in ws[i].clients :: ToldOk(ws[i].clients[id])
    decreases i
  {
    hide ApiNext, ToldOk;
    if i > 0 {
      AllTold(cfg, ws, turns, i - 1);
      assert ApiNext(cfg, ws[i - 1], turns[i - 1]) == Some(ws[i - 1 + 1]);
      ToldStep(cfg, ws[i - 1], turns[i - 1]);
    }
  }

  /** The granted charges for request `req`. */
  function UnitsOf(cfg: Config, a: Api, req: nat): set<nat>
    requires |a.causes| == |a.history|
  {
    set i | 0 <= i < |a.history| && a.causes[i].ChargeFor? && a.causes[i].req == req
            && a.history[i].Ask? && Granted(cfg, a.history, i, true)
  }

  /** What a request owes at each point of the route. */
  function Price(pc: Pc): nat {
    match pc
    case AtMiddleware => 0
    case Reporting(ok) => if ok then 1 else 0
    case TurnedAway(stage) => if stage.InMiddleware? then 0 else 1
    case Executing => 2
    case Answered(_) => 2
    case _ => 1
  }

  predicate ReachesExecution(pc: Pc) {
    pc.Executing? || pc.Answered?
  }

  lemma UnitIsBooked(cfg: Config, a: Api, id: nat, i: nat)
    requires ApiInv(cfg, a) && id in a.clients && |a.causes| == |a.history| && i in UnitsOf(cfg, a, id)
    ensures var stage := a.causes[i].stage;
            && stage in a.clients[id].charges && a.clients[id].charges[stage] == i
            && Answer(a.clients[id].pc, stage) == Some(true) && a.history[i].key == KeyOf(a.clients[id])
  {
    hide Granted, After, Answer;
    assert OnTheBooks(a, i) && ClientOk(cfg, a, id);
    assert a.causes[i].stage.InMiddleware? ==> StageOk(cfg, a, id, InMiddleware);
    assert StageOk(cfg, a, id, a.causes[i].stage);
  }

  lemma BookedIsUnit(cfg: Config, a: Api, id: nat, stage: Stage)
    requires ApiInv(cfg, a) && id in a.clients && |a.causes| == |a.history|
    requires Answer(a.clients[id].pc, stage) == Some(true)
    ensures stage in a.clients[id].charges && a.clients[id].charges[stage] in UnitsOf(cfg, a, id)
    ensures a.causes[a.clients[id].charges[stage]].stage == stage
  {
    hide Granted, After, Answer;
    assert StageOk(cfg, a, id, stage);
  }

  lemma PricePaid(cfg: Config, a: Api, id: nat)
    requires ApiInv(cfg, a) && id in a.clients
    ensures |UnitsOf(cfg, a, id)| == Price(a.clients[id].pc)
    ensures forall i | i in UnitsOf(cfg, a, id) :: a.history[i].key == KeyOf(a.clients[id])
  {
    hide ApiInv, Granted;
    assert |a.causes| == |a.history| by { InvAligned(cfg, a); }
    var client, units := a.clients[id], UnitsOf(cfg, a, id);
    forall i | i in units
      ensures var stage := a.causes[i].stage;
              && stage in client.charges && client.charges[stage] == i
              && Answer(client.pc, stage) == Some(true) && a.history[i].key == KeyOf(client)
    {
      UnitIsBooked(cfg, a, id, i);
    }
    if Price(client.pc) == 0 {
      assert units == {};
    } else {
      BookedIsUnit(cfg, a, id, InMiddleware);
      if Price(client.pc) == 1 {
        assert units == {client.charges[InMiddleware]};
      } else {
        BookedIsUnit(cfg, a, id, InHandler);
        assert units == {client.charges[InMiddleware], client.charges[InHandler]};
      }
    }
  }

  lemma InvAligned(cfg: Config, a: Api)
    requires ApiInv(cfg, a)
    ensures |a.causes| == |a.history|
  {
  }

  /** In every state of every run of the server, each request has paid exactly what its position on the
      route calls for, under its own key; to execute it must have paid twice. */
  lemma ExecutionCostsTwo(cfg: Config, ws: seq<Api>, turns: seq<Turn>, i: nat, id: nat)
    requires Service(cfg, ws, turns) && i < |ws| && id in ws[i].clients
    ensures |ws[i].causes| == |ws[i].history|
    ensures |UnitsOf(cfg, ws[i], id)| == Price(ws[i].clients[id].pc)
    ensures |UnitsOf(cfg, ws[i], id)| == 2 <==> ReachesExecution(ws[i].clients[id].pc)
    ensures var r := ws[i].clients[id].request;
            forall u | u in UnitsOf(cfg, ws[i], id) ::
              ws[i].history[u].key == if r.userId == "" then r.remoteAddr else r.userId
  {
    hide ApiInv, UnitsOf, ApiNext;
    ServiceAlways(cfg, ws, turns, i);
    InvAligned(cfg, ws[i]);
    PricePaid(cfg, ws[i], id);
  }

  /** Request `req` got to execution with key `key`, and both its charges fell on `date`. */
  predicate ServedOn(cfg: Config, a: Api, req: nat, key: string, date: int) {
    && |a.causes| == |a.history| && req in a.clients
    && ReachesExecution(a.clients[req].pc) && KeyOf(a.clients[req]) == key
    && forall i | i in UnitsOf(cfg, a, req) :: a.history[i].today == date
  }

  function GrantIndices(cfg: Config, h: History, n: nat, key: string, date: int): set<nat>
    requires n <= |h|
  {
    set i | 0 <= i < n && Counts(cfg, h, i, key, true) && h[i].today == date
  }

  lemma {:induction false} GrantIndicesCount(cfg: Config, h: History, n: nat, key: string, date: int)
    requires n <= |h|
    ensures |GrantIndices(cfg, h, n, key, date)| == GrantsOn(cfg, h, n, key, date, true)
  {
    hide Granted;
    if n > 0 {
      GrantIndicesCount(cfg, h, n - 1, key, date);
      var was := GrantIndices(cfg, h, n - 1, key, date);
      if Counts(cfg, h, n - 1, key, true) && h[n - 1].today == date {
        assert GrantIndices(cfg, h, n, key, date) == was + {n - 1};
      } else {
        assert GrantIndices(cfg, h, n, key, date) == was;
      }
    }
  }

  lemma {:induction false} PairsCount(cfg: Config, a: Api, served: set<nat>)
    requires ApiInv(cfg, a)
    requires forall req | req in served :: req in a.clients && ReachesExecution(a.clients[req].pc)
    ensures |Spread(map req | req in served :: UnitsOf(cfg, a, req))| == 2 * |served|
  {
    hide UnitsOf, ClientOk, After;
    var family := map req | req in served :: UnitsOf(cfg, a, req);
    if served == {} {
      EmptySpread(family);
    } else {
      var req :| req in served;
      var rest := served - {req};
      PairsCount(cfg, a, rest);
      PricePaid(cfg, a, req);
      assert family - {req} == map r | r in rest :: UnitsOf(cfg, a, r);
      SpreadSplit(family, req);
    }
  }

  /** Under any interleaving of requests, queries and sweeps, at most half of the daily allowance of a
      key, rounded down, can be served on one date. */
  lemma HalfTheAllowance(cfg: Config, ws: seq<Api>, turns: seq<Turn>, i: nat, served: set<nat>, key: string, date: int)
    requires Service(cfg, ws, turns) && i < |ws| && Monotone(ws[i].history) && cfg.daily > 0
    requires forall req | req in served :: ServedOn(cfg, ws[i], req, key, date)
    ensures 2 * |served| <= GrantsOn(cfg, ws[i].history, |ws[i].history|, key, date, true) <= cfg.daily
    ensures |served| <= cfg.daily / 2
  {
    var a, h := ws[i], ws[i].history;
    ServiceAlways(cfg, ws, turns, i);
    var family := map req | req in served :: UnitsOf(cfg, a, req);
    PairsCount(cfg, a, served);
    forall req | req in served
      ensures UnitsOf(cfg, a, req) <= GrantIndices(cfg, h, |h|, key, date)
    {
      PricePaid(cfg, a, req);
    }
    DisjointSpread(family, GrantIndices(cfg, h, |h|, key, date));
    GrantIndicesCount(cfg, h, |h|, key, date);
    DailyBoundAtEnd(cfg, h, key, date);
  }
}
