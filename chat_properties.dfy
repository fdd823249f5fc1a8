/**
 * What the controller promises about the scan, the fallback and the table, stated over
 * the functions that `Chat.MatchIntents` and `Chat.ChatController` are proved to compute.
 */
module ChatProperties {
  import opened Wrappers
  import opened JsRegex
  import opened Helpers
  import opened IntentTable
  import opened Chat

  /** Rules with no matching pattern, met while `reply` is falsy, change nothing. */
  lemma {:induction false} UnmatchedRulesSkipped(rules: seq<IntentRule>, message: string, svc: Services,
                                                 k: nat, k2: nat, s: ScanState)
    requires k <= k2 <= |rules| && !Truthy(s.reply)
    requires forall j :: k <= j < k2 ==> !RuleMatches(rules[j], message)
    ensures ScanFrom(rules, message, svc, k, s) == ScanFrom(rules, message, svc, k2, s)
    decreases k2 - k
  {
    if k < k2 {
      UnmatchedRulesSkipped(rules, message, svc, k + 1, k2, s);
    }
  }

  /**
   * First-match priority: when rule `k` is the first rule with a matching pattern and its
   * responder, applied to the first matching pattern of that rule, gives a non-empty
   * reply, that reply is the answer and its calls are the only calls.
   */
  lemma FirstMatchingRuleWins(rules: seq<IntentRule>, message: string, svc: Services, k: nat)
    requires FirstRule(rules, message, 0) == Some(k)
    requires RuleReply(rules[k], message, svc).text != ""
    ensures var r := RuleReply(rules[k], message, svc);
      Dispatch(rules, message, svc) == Outcome(r.text, r.effects)
  {
    UnmatchedRulesSkipped(rules, message, svc, 0, k, ScanState(None, []));
  }

  /** Nothing after the deciding rule is looked at: any table that agrees up to it answers alike. */
  lemma LaterRulesIgnored(rules: seq<IntentRule>, other: seq<IntentRule>, message: string, svc: Services, k: nat)
    requires FirstRule(rules, message, 0) == Some(k)
    requires RuleReply(rules[k], message, svc).text != ""
    requires k < |other| && other[..k + 1] == rules[..k + 1]
    ensures Dispatch(other, message, svc) == Dispatch(rules, message, svc)
  {
    assert forall j :: 0 <= j <= k ==> other[j] == rules[j] by {
      forall j | 0 <= j <= k ensures other[j] == rules[j] {
        assert other[..k + 1][j] == rules[..k + 1][j];
      }
    }
    assert FirstRule(other, message, 0) == Some(k) by {
      FirstRulePrefix(rules, other, message, 0, k);
    }
    FirstMatchingRuleWins(rules, message, svc, k);
    FirstMatchingRuleWins(other, message, svc, k);
  }

  lemma {:induction false} FirstRulePrefix(rules: seq<IntentRule>, other: seq<IntentRule>, message: string,
                                           from: nat, k: nat)
    requires from <= k < |rules| && k < |other|
    requires forall j :: from <= j <= k ==> other[j] == rules[j]
    requires FirstRule(rules, message, from) == Some(k)
    ensures FirstRule(other, message, from) == Some(k)
    decreases k - from
  {
    if from < k {
      FirstRulePrefix(rules, other, message, from + 1, k);
    }
  }

  /** Inside the deciding rule, patterns after the first matching one are not looked at either. */
  lemma {:induction false} LaterPatternsIgnored(patterns: seq<Pattern>, other: seq<Pattern>, message: string,
                                                from: nat, q: nat)
    requires FirstPattern(patterns, message, from) == Some(q)
    requires q < |other| && forall i :: from <= i <= q ==> other[i] == patterns[i]
    ensures FirstPattern(other, message, from) == Some(q)
    decreases q - from
  {
    if from < q {
      LaterPatternsIgnored(patterns, other, message, from + 1, q);
    }
  }

  /** A deciding rule with a fixed non-empty reply answers it verbatim, calling no service. */
  lemma StaticRuleAnswers(rules: seq<IntentRule>, message: string, svc: Services, k: nat)
    requires FirstRule(rules, message, 0) == Some(k)
    requires rules[k].responder.Static? && rules[k].responder.response != ""
    ensures Dispatch(rules, message, svc) == Outcome(rules[k].responder.response, [])
  {
    FirstMatchingRuleWins(rules, message, svc, k);
  }

  /**
   * A deciding weather rule answers exactly `getWeather(match[1])`, where `match` is the
   * result of its first matching pattern, and that lookup is the only call.
   */
  lemma WeatherRuleAnswers(rules: seq<IntentRule>, message: string, svc: Services, k: nat)
    requires FirstRule(rules, message, 0) == Some(k)
    requires rules[k].responder.WeatherAction?
    ensures var q := FirstPattern(rules[k].patterns, message, 0).value;
      var city := Group(Exec(rules[k].patterns[q], message).value, CityGroup);
      Dispatch(rules, message, svc) == Outcome(GetWeather(svc, city), [WeatherCall(city)])
  {
    FirstMatchingRuleWins(rules, message, svc, k);
  }

  /**
   * The outer `break` tests truthiness: a matching rule whose reply is "" does not stop
   * the scan, which goes on with the next rule and the calls made so far.
   */
  lemma EmptyReplyScansOn(rules: seq<IntentRule>, message: string, svc: Services, k: nat)
    requires FirstRule(rules, message, 0) == Some(k)
    requires RuleReply(rules[k], message, svc).text == ""
    ensures Scan(rules, message, svc) ==
      ScanFrom(rules, message, svc, k + 1, ScanState(Some(""), RuleReply(rules[k], message, svc).effects))
  {
    UnmatchedRulesSkipped(rules, message, svc, 0, k, ScanState(None, []));
  }

  /** ... and when no later rule matches, the answer comes from the model after those calls. */
  lemma EmptyReplyFallsBack(rules: seq<IntentRule>, message: string, svc: Services, k: nat)
    requires FirstRule(rules, message, 0) == Some(k)
    requires RuleReply(rules[k], message, svc).text == ""
    requires FirstRule(rules, message, k + 1).None?
    ensures Dispatch(rules, message, svc) ==
      Outcome(ChatWithGemini(svc, message), RuleReply(rules[k], message, svc).effects + [GeminiCall(message)])
  {
    var s := ScanState(Some(""), RuleReply(rules[k], message, svc).effects);
    EmptyReplyScansOn(rules, message, svc, k);
    UnmatchedRulesSkipped(rules, message, svc, k + 1, |rules|, s);
  }

  /** Fallback: when no pattern of any rule matches, the answer is the model's, asked once with the message. */
  lemma NoMatchAsksModel(rules: seq<IntentRule>, message: string, svc: Services)
    requires FirstRule(rules, message, 0).None?
    ensures Dispatch(rules, message, svc) == Outcome(ChatWithGemini(svc, message), [GeminiCall(message)])
  {
    UnmatchedRulesSkipped(rules, message, svc, 0, |rules|, ScanState(None, []));
  }

  // ---------------------------------------------------------------------------------
  // The table itself: every reply it can give is non-empty, so the first matching rule decides.

  lemma TableRepliesNonEmpty(k: nat, message: string, svc: Services)
    requires k < |Intents| && RuleMatches(Intents[k], message)
    ensures RuleReply(Intents[k], message, svc).text != ""
  {
    if Intents[k].responder.Static? {
      StaticRepliesNonEmpty(k);
    }
  }

  /** For `intents`, the first rule with a matching pattern always gives the answer. */
  lemma TableFirstMatchDecides(message: string, svc: Services, k: nat)
    requires FirstRule(Intents, message, 0) == Some(k)
    ensures var r := RuleReply(Intents[k], message, svc);
      Dispatch(Intents, message, svc) == Outcome(r.text, r.effects)
  {
    TableRepliesNonEmpty(k, message, svc);
    FirstMatchingRuleWins(Intents, message, svc, k);
  }

  /** For `intents`, the model is asked exactly when no pattern of any rule matches. */
  lemma TableAsksModelIffNoMatch(message: string, svc: Services)
    ensures GeminiCall(message) in Dispatch(Intents, message, svc).effects <==> FirstRule(Intents, message, 0).None?
  {
    match FirstRule(Intents, message, 0)
    case None =>
      NoMatchAsksModel(Intents, message, svc);
    case Some(k) =>
      TableFirstMatchDecides(message, svc, k);
  }

  /**
   * For `intents`, every weather lookup is passed a defined city that is a non-empty run
   * of letters and white space, never `undefined`.
   */
  lemma TableWeatherCallsHaveCity(message: string, svc: Services)
    ensures forall e <- Dispatch(Intents, message, svc).effects ::
      e.WeatherCall? ==> e.city.Some? && IsWord(e.city.value)
  {
    match FirstRule(Intents, message, 0)
    case None =>
      NoMatchAsksModel(Intents, message, svc);
    case Some(k) =>
      TableFirstMatchDecides(message, svc, k);
      if Intents[k].responder.WeatherAction? {
        var q := FirstPattern(Intents[k].patterns, message, 0).value;
        ActionMatchCapturesCity(k, q, message);
      }
  }

  // ---------------------------------------------------------------------------------
  // The status codes and bodies of the three ways a request ends.

  /** A missing, empty or non-string message: 400 with the error text, and nothing else happens. */
  lemma InvalidMessageRejected(field: MessageField, svc: Services, storeAccepts: bool)
    requires !IsValidMessage(field)
    ensures var h := Handle(field, svc, storeAccepts);
      h.response.Status() == 400 && h.response.Body() == ErrorBody("Message must be a string.") && h.effects == []
  {
  }

  /** A failed save: 500 with the fixed reply, although a reply had been computed and the save was tried. */
  lemma FailedSaveAnswers500(field: MessageField, svc: Services)
    requires IsValidMessage(field)
    ensures var h := Handle(field, svc, false);
      && h.response.Status() == 500
      && h.response.Body() == ReplyBody("An internal error occurred.")
      && h.effects[|h.effects| - 1] == SaveCall(ChatRecord(field.s, Dispatch(Intents, field.s, svc).reply))
  {
  }

  /** Success: 200, and the `reply` sent is the `bot` field of the one record saved. */
  lemma SuccessAnswersSavedReply(field: MessageField, svc: Services)
    requires IsValidMessage(field)
    ensures var h := Handle(field, svc, true);
      && h.response.Status() == 200
      && exists bot :: h.response.Body() == ReplyBody(bot) && h.effects[|h.effects| - 1] == SaveCall(ChatRecord(field.s, bot))
  {
    var bot := Dispatch(Intents, field.s, svc).reply;
    assert Handle(field, svc, true).response.Body() == ReplyBody(bot);
  }
}
