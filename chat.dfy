/**
 * `chatController` (server/src/controllers/chat.controller.js): validate the message,
 * scan the intent table for the first matching pattern, answer with the rule's fixed
 * reply or its weather lookup, fall back to the generative model when no reply was
 * produced, save the exchange, and answer `{reply}`; a thrown error answers 500.
 *
 * The external calls the controller makes are recorded, in order, as `Effect`s, so that
 * which capabilities a request used, with which arguments, is part of what is proved.
 */
module Chat {
  import opened Wrappers
  import opened JsRegex
  import opened Helpers
  import opened IntentTable

  /**
   * `req.body.message`: absent (`undefined`), some value that is not a string together
   * with its JavaScript truthiness (`null`, `0` and `false` are falsy; objects, arrays and
   * other numbers truthy), or a string.
   */
  datatype MessageField = Absent | NonString(truthy: bool) | Text(s: string)

  /** JavaScript truthiness of the field's value; the empty string is falsy. */
  predicate FieldTruthy(field: MessageField) {
    match field
    case Absent => false
    case NonString(truthy) => truthy
    case Text(s) => s != ""
  }

  /**
   * The negation of the guard `!message || typeof message !== "string"`: what passes is
   * exactly a non-empty string.
   */
  predicate IsValidMessage(field: MessageField): (b: bool)
    ensures b <==> field.Text? && field.s != ""
  {
    !(!FieldTruthy(field) || !field.Text?)
  }

  /** The document saved for one exchange. */
  datatype ChatRecord = ChatRecord(user: string, bot: string)

  /** An outbound call of the controller. */
  datatype Effect =
    | WeatherCall(city: Option<string>)   // getWeather(match[1])
    | GeminiCall(prompt: string)          // chatWithGemini(message)
    | SaveCall(record: ChatRecord)        // new chatModel(record).save()

  const InvalidMessageError: string := "Message must be a string."
  const InternalErrorReply: string := "An internal error occurred."

  /** The JSON object sent back. */
  datatype JsonBody = ErrorBody(error: string) | ReplyBody(reply: string)

  /** What the controller answers. */
  datatype Response = BadRequest | Replied(reply: string) | InternalError {

    /** The HTTP status: 200 exactly for a reply, a client error for a bad message, a server error otherwise. */
    function Status(): (code: nat)
      ensures code == 200 <==> this.Replied?
      ensures 400 <= code < 500 <==> this.BadRequest?
      ensures 500 <= code < 600 <==> this.InternalError?
    {
      match this
      case BadRequest => 400
      case Replied(_) => 200
      case InternalError => 500
    }

    /** The JSON body: `{error}` only for a bad message, and a reply carries its own text. */
    function Body(): (body: JsonBody)
      ensures body.ErrorBody? <==> this.BadRequest?
      ensures this.Replied? ==> body.reply == this.reply
      ensures this.InternalError? ==> body.reply != ""
    {
      match this
      case BadRequest => ErrorBody(InvalidMessageError)
      case Replied(r) => ReplyBody(r)
      case InternalError => ReplyBody(InternalErrorReply)
    }
  }

  /** JavaScript truthiness of `reply`, which starts as `null` (`None`). */
  predicate Truthy(reply: Option<string>): (b: bool)
    ensures !b <==> reply == None || reply == Some("")
  {
    reply.Some? && reply.value != ""
  }

  /** `match[n]`: the group, or `undefined` past the end of the array. */
  function Group(m: Match, n: nat): Option<string> {
    if n < |m.groups| then m.groups[n] else None
  }

  // ---------------------------------------------------------------------------------
  // The scan, as functions.

  /** The index of the first of `patterns[from..]` that matches `message`. */
  function FirstPattern(patterns: seq<Pattern>, message: string, from: nat): (r: Option<nat>)
    ensures r.Some? ==>
      && from <= r.value < |patterns|
      && Exec(patterns[r.value], message).Some?
      && forall q :: from <= q < r.value ==> Exec(patterns[q], message).None?
    ensures r.None? ==> forall q :: from <= q < |patterns| ==> Exec(patterns[q], message).None?
    decreases |patterns| - from
  {
    if from >= |patterns| then None
    else if Exec(patterns[from], message).Some? then Some(from)
    else FirstPattern(patterns, message, from + 1)
  }

  /** Does any pattern of `rule` match `message`? */
  predicate RuleMatches(rule: IntentRule, message: string) {
    FirstPattern(rule.patterns, message, 0).Some?
  }

  /** The index of the first of `rules[from..]` with a matching pattern. */
  function FirstRule(rules: seq<IntentRule>, message: string, from: nat): (r: Option<nat>)
    ensures r.Some? ==>
      && from <= r.value < |rules|
      && RuleMatches(rules[r.value], message)
      && forall j :: from <= j < r.value ==> !RuleMatches(rules[j], message)
    ensures r.None? ==> forall j :: from <= j < |rules| ==> !RuleMatches(rules[j], message)
    decreases |rules| - from
  {
    if from >= |rules| then None
    else if RuleMatches(rules[from], message) then Some(from)
    else FirstRule(rules, message, from + 1)
  }

  /** What a responder yields on a match: its reply and the calls made for it. */
  datatype Reply = Reply(text: string, effects: seq<Effect>)

  function Respond(responder: Responder, m: Match, svc: Services): (r: Reply)
    ensures responder.Static? ==> r == Reply(responder.response, [])
    ensures responder.WeatherAction? ==>
      r.text != "" && r.effects == [WeatherCall(Group(m, CityGroup))]
  {
    match responder
    case Static(text) => Reply(text, [])
    case WeatherAction =>
      var city := Group(m, CityGroup);
      Reply(GetWeather(svc, city), [WeatherCall(city)])
  }

  /** The reply a matching rule gives: its responder applied to its first matching pattern. */
  function RuleReply(rule: IntentRule, message: string, svc: Services): Reply
    requires RuleMatches(rule, message)
  {
    var q := FirstPattern(rule.patterns, message, 0).value;
    Respond(rule.responder, Exec(rule.patterns[q], message).value, svc)
  }

  /** The loop state: `reply` and the calls made so far. */
  datatype ScanState = ScanState(reply: Option<string>, effects: seq<Effect>)

  /**
   * One turn of the outer loop: a rule with no matching pattern leaves `reply` as it was;
   * a matching one overwrites `reply`, whatever it held, and only appends calls, a fixed
   * reply none and the weather action one lookup with a truthy result.
   */
  function RuleStep(rule: IntentRule, message: string, svc: Services, s: ScanState): (r: ScanState)
    ensures !RuleMatches(rule, message) ==> r == s
    ensures RuleMatches(rule, message) && rule.responder.Static? ==>
      r == ScanState(Some(rule.responder.response), s.effects)
    ensures RuleMatches(rule, message) && rule.responder.WeatherAction? ==>
      && Truthy(r.reply)
      && |r.effects| == |s.effects| + 1 && r.effects[..|s.effects|] == s.effects
      && r.effects[|s.effects|].WeatherCall?
  {
    if RuleMatches(rule, message) then
      var r := RuleReply(rule, message, svc);
      ScanState(Some(r.text), s.effects + r.effects)
    else s
  }

  /** The outer loop from rule `k` on; it stops after the first turn that leaves `reply` truthy. */
  function ScanFrom(rules: seq<IntentRule>, message: string, svc: Services, k: nat, s: ScanState)
    : (r: ScanState)
    requires k <= |rules|
    ensures |s.effects| <= |r.effects| && r.effects[..|s.effects|] == s.effects
    ensures forall i :: |s.effects| <= i < |r.effects| ==> r.effects[i].WeatherCall?
    decreases |rules| - k
  {
    if k == |rules| then s
    else
      var s' := RuleStep(rules[k], message, svc, s);
      if Truthy(s'.reply) then s' else ScanFrom(rules, message, svc, k + 1, s')
  }

  /** The whole scan, from `reply = null` and no calls. */
  function Scan(rules: seq<IntentRule>, message: string, svc: Services): (r: ScanState)
    ensures forall e <- r.effects :: e.WeatherCall?
  {
    ScanFrom(rules, message, svc, 0, ScanState(None, []))
  }

  /** The reply the controller saves and sends, and the calls made to get it. */
  datatype Outcome = Outcome(reply: string, effects: seq<Effect>)

  /**
   * Scan, then ask the generative model when the scan left `reply` falsy. The model is
   * asked at most once, last, with the original message, and exactly when the scan
   * produced no truthy reply.
   */
  function Dispatch(rules: seq<IntentRule>, message: string, svc: Services): (r: Outcome)
    ensures GeminiCall(message) in r.effects <==> !Truthy(Scan(rules, message, svc).reply)
    ensures forall i :: 0 <= i < |r.effects| - 1 ==> r.effects[i].WeatherCall?
    ensures forall e <- r.effects :: e.WeatherCall? || e == GeminiCall(message)
  {
    var s := Scan(rules, message, svc);
    if Truthy(s.reply) then Outcome(s.reply.value, s.effects)
    else Outcome(ChatWithGemini(svc, message), s.effects + [GeminiCall(message)])
  }

  /** The response and the calls of one request; `storeAccepts` says whether the save succeeds. */
  datatype Handled = Handled(response: Response, effects: seq<Effect>)

  /**
   * One request. An invalid message is answered 400 before anything is called. Otherwise
   * exactly one save is attempted, after every other call, of the message and the final
   * reply; the answer is that reply when the save succeeds and 500 when it throws.
   */
  function Handle(field: MessageField, svc: Services, storeAccepts: bool): (r: Handled)
    ensures r.response == BadRequest <==> !IsValidMessage(field)
    ensures !IsValidMessage(field) ==> r.effects == []
    ensures IsValidMessage(field) ==>
      var o := Dispatch(Intents, field.s, svc);
      && |r.effects| > 0
      && r.effects[..|r.effects| - 1] == o.effects
      && r.effects[|r.effects| - 1] == SaveCall(ChatRecord(field.s, o.reply))
      && (forall i :: 0 <= i < |r.effects| - 1 ==> !r.effects[i].SaveCall?)
      && (r.response == InternalError <==> !storeAccepts)
      && (storeAccepts ==> r.response == Replied(o.reply))
  {
    if !IsValidMessage(field) then Handled(BadRequest, [])
    else
      var o := Dispatch(Intents, field.s, svc);
      var saved := SaveCall(ChatRecord(field.s, o.reply));
      Handled(if storeAccepts then Replied(o.reply) else InternalError, o.effects + [saved])
  }

  // ---------------------------------------------------------------------------------
  // The store and the controller, imperatively.

  /** The chat collection, seen only through `save`, which may throw. */
  class ChatStore {
    var records: seq<ChatRecord>
    /** Whether the datastore accepts a write (connection up, document valid). */
    var accepting: bool

    constructor (accepting: bool)
      ensures records == [] && this.accepting == accepting
    {
      records := [];
      this.accepting := accepting;
    }

    /** `new chatModel(record).save()`: `ok` false stands for the rejected promise. */
    method Save(record: ChatRecord) returns (ok: bool)
      modifies this
      ensures ok == old(accepting) && accepting == old(accepting)
      ensures records == if ok then old(records) + [record] else old(records)
    {
      ok := accepting;
      if ok {
        records := records + [record];
      }
    }
  }

  /**
   * The nested loops of the controller: for each rule in order, for each of its patterns
   * in order, the first match sets `reply` and leaves the inner loop; the outer loop stops
   * once `reply` is truthy.
   */
  method MatchIntents(rules: seq<IntentRule>, message: string, svc: Services)
    returns (reply: Option<string>, effects: seq<Effect>)
    ensures ScanState(reply, effects) == Scan(rules, message, svc)
  {
    reply := None;
    effects := [];
    var k := 0;
    while k < |rules|
      invariant k <= |rules|
      invariant ScanFrom(rules, message, svc, k, ScanState(reply, effects)) == Scan(rules, message, svc)
    {
      var rule := rules[k];
      ghost var before := ScanState(reply, effects);
      var q := 0;
      while q < |rule.patterns|
        invariant q <= |rule.patterns|
        invariant ScanState(reply, effects) == before
        invariant FirstPattern(rule.patterns, message, 0) == FirstPattern(rule.patterns, message, q)
      {
        var m := Exec(rule.patterns[q], message);
        if m.Some? {
          match rule.responder {
            case WeatherAction =>
              var city := Group(m.value, CityGroup);
              reply := Some(GetWeather(svc, city));
              effects := effects + [WeatherCall(city)];
            case Static(text) =>
              reply := Some(text);
          }
          break;
        }
        q := q + 1;
      }
      assert ScanState(reply, effects) == RuleStep(rule, message, svc, before);
      if Truthy(reply) {
        break;
      }
      k := k + 1;
    }
  }

  /** `chatController`: the response and the calls made, with the store updated by the save. */
  method ChatController(field: MessageField, svc: Services, store: ChatStore)
    returns (response: Response, effects: seq<Effect>)
    modifies store
    ensures Handled(response, effects) == Handle(field, svc, old(store.accepting))
    ensures store.accepting == old(store.accepting)
    ensures store.records ==
      if response.Replied? then old(store.records) + [ChatRecord(field.s, response.reply)]
      else old(store.records)
  {
    if !field.Text? || field.s == "" {
      return BadRequest, [];
    }
    var message := field.s;
    var reply, calls := MatchIntents(Intents, message, svc);
    var text: string;
    if !Truthy(reply) {
      text := ChatWithGemini(svc, message);
      calls := calls + [GeminiCall(message)];
    } else {
      text := reply.value;
    }
    var record := ChatRecord(message, text);
    effects := calls + [SaveCall(record)];
    var ok := store.Save(record);
    if ok {
      response := Replied(text);
    } else {
      response := InternalError;
    }
  }
}
