/**
 * The quick-reply buttons of the chat page (client/src/Pages/Chat.jsx) each send a fixed
 * message. For each of them, and for a message no rule matches, the controller's answer and
 * the calls it makes, with the store accepting the save, for whatever the remote services return.
 *
 * Each proof walks the matcher over the message one step per lemma: a literal found by
 * `LitAtFrom` or ruled out by `MismatchAt`, a run length fixed by `DotRunIs` or `WordRunIs`, a back-off over blocked
 * positions by `BacktrackSkips`, the leftmost start by `SearchSkips`, and each earlier
 * pattern ruled out by one character (`NoMatchWithoutChar`) or one pair of adjacent
 * characters (`NoMatchWithoutPair`) of its literals that occurs nowhere in the message.
 */
module Scenarios {
  import opened Wrappers
  import opened JsRegex
  import opened Helpers
  import opened IntentTable
  import opened Chat
  import opened ChatProperties

  // The messages: the first nine are sent by the chat page's quick-reply buttons.
  const ResetPasswordMessage: string := "How can I reset my password?"
  const BookFlightMessage: string := "Help me book a flight to Paris."
  const WeatherMessage: string := "What's the weather in New York?"
  const ForecastMessage: string := "Will it rain tomorrow in Berlin?"
  const ExchangeMessage: string := "What's the exchange rate for USD to EUR?"
  const TopSpotsMessage: string := "What are the top tourist spots in Sydney?"
  const RentCarMessage: string := "I need a rental car in Rome."
  const AppCrashMessage: string := "The app keeps crashing on my phone."
  const DarkModeMessage: string := "Can you add a dark mode feature?"
  const BookingWeatherMessage: string := "Book flight, weather in Rome"
  const UnmatchedMessageText: string := "Tell me a joke."

  lemma ResetPasswordButtonDotRunAt15()
    ensures DotRun(ResetPasswordMessage, 15) == 13
  {
    var t := ResetPasswordMessage;
    assert forall n :: 15 <= n < 21 ==> !IsLineTerminator(t[n]);
    assert forall n :: 21 <= n < 27 ==> !IsLineTerminator(t[n]);
    assert forall n :: 27 <= n < 28 ==> !IsLineTerminator(t[n]);
    DotRunIs(t, 15, 13);
  }
  lemma ResetPasswordButtonPasswordAt19()
    ensures LitAt(ResetPasswordMessage, 19, "password")
  {
    LitAtFrom(ResetPasswordMessage, 19, "password");
  }
  lemma ResetPasswordButtonResetPasswordPiece2At19()
    ensures MatchAt(ResetPasswordPattern, 2, ResetPasswordMessage, 19, []) == Some((27, []))
  {
    ResetPasswordButtonPasswordAt19();
  }
  lemma ResetPasswordButtonResetPasswordPiece2At15BacksOff10To4()
    ensures Backtrack(ResetPasswordPattern, 2, ResetPasswordMessage, 15, 10, 0, false, []) == Backtrack(ResetPasswordPattern, 2, ResetPasswordMessage, 15, 4, 0, false, [])
  {
    var t := ResetPasswordMessage;
    var p := ResetPasswordPattern;
    forall n | 20 <= n < 26 ensures Blocked(p[2], t, n) { HeadMismatch(t, n, "password"); }
    BacktrackSkips(p, 2, t, 15, 10, 4, 0, false, []);
  }
  lemma ResetPasswordButtonResetPasswordPiece2At15BacksOff13To10()
    ensures Backtrack(ResetPasswordPattern, 2, ResetPasswordMessage, 15, 13, 0, false, []) == Backtrack(ResetPasswordPattern, 2, ResetPasswordMessage, 15, 10, 0, false, [])
  {
    var t := ResetPasswordMessage;
    var p := ResetPasswordPattern;
    forall n | 26 <= n < 29 ensures Blocked(p[2], t, n) { HeadMismatch(t, n, "password"); }
    BacktrackSkips(p, 2, t, 15, 13, 10, 0, false, []);
  }
  lemma ResetPasswordButtonResetPasswordPiece1At15()
    ensures MatchAt(ResetPasswordPattern, 1, ResetPasswordMessage, 15, []) == Some((27, []))
  {
    ResetPasswordButtonDotRunAt15();
    ResetPasswordButtonResetPasswordPiece2At19();
    ResetPasswordButtonResetPasswordPiece2At15BacksOff10To4();
    ResetPasswordButtonResetPasswordPiece2At15BacksOff13To10();
  }
  lemma ResetPasswordButtonResetAt10()
    ensures LitAt(ResetPasswordMessage, 10, "reset")
  {
    LitAtFrom(ResetPasswordMessage, 10, "reset");
  }
  lemma ResetPasswordButtonResetPasswordPiece0At10()
    ensures MatchAt(ResetPasswordPattern, 0, ResetPasswordMessage, 10, []) == Some((27, []))
  {
    ResetPasswordButtonResetPasswordPiece1At15();
    ResetPasswordButtonResetAt10();
  }
  lemma ResetPasswordButtonResetPasswordSearchSkips6To10()
    ensures SearchFrom(ResetPasswordPattern, ResetPasswordMessage, 6) == SearchFrom(ResetPasswordPattern, ResetPasswordMessage, 10)
  {
    var t := ResetPasswordMessage;
    var p := ResetPasswordPattern;
    forall n | 6 <= n < 10 ensures Blocked(p[0], t, n) { HeadMismatch(t, n, "reset"); }
    SearchSkips(p, t, 6, 10);
  }
  lemma ResetPasswordButtonResetPasswordSearchSkips0To6()
    ensures SearchFrom(ResetPasswordPattern, ResetPasswordMessage, 0) == SearchFrom(ResetPasswordPattern, ResetPasswordMessage, 6)
  {
    var t := ResetPasswordMessage;
    var p := ResetPasswordPattern;
    forall n | 0 <= n < 6 ensures Blocked(p[0], t, n) { HeadMismatch(t, n, "reset"); }
    SearchSkips(p, t, 0, 6);
  }
  lemma ResetPasswordButtonResetPasswordMatches()
    ensures Exec(ResetPasswordPattern, ResetPasswordMessage).Some?
  {
    ResetPasswordButtonResetPasswordPiece0At10();
    ResetPasswordButtonResetPasswordSearchSkips6To10();
    ResetPasswordButtonResetPasswordSearchSkips0To6();
  }
  lemma ResetPasswordButtonAccountPatternsFrom1Pick1()
    ensures FirstPattern(AccountRule.patterns, ResetPasswordMessage, 1) == Some(1)
  {
    ResetPasswordButtonResetPasswordMatches();
  }
  lemma ResetPasswordButtonNoLogin()
    ensures Exec(LoginPattern, ResetPasswordMessage).None?
  {
    NoMatchWithoutChar(LoginPattern, ResetPasswordMessage, 0, 0);
  }
  lemma ResetPasswordButtonAccountPatternsFrom0Pick1()
    ensures FirstPattern(AccountRule.patterns, ResetPasswordMessage, 0) == Some(1)
  {
    ResetPasswordButtonNoLogin();
    ResetPasswordButtonAccountPatternsFrom1Pick1();
  }
  lemma ResetPasswordButtonRule0PatternsFrom0Pick1()
    ensures FirstPattern(Intents[0].patterns, ResetPasswordMessage, 0) == Some(1)
  {
    ResetPasswordButtonAccountPatternsFrom0Pick1();
  }
  lemma ResetPasswordButtonRulesFrom0Pick0()
    ensures FirstRule(Intents, ResetPasswordMessage, 0) == Some(0)
  {
    ResetPasswordButtonRule0PatternsFrom0Pick1();
  }
  lemma ResetPasswordButtonDispatch(svc: Services)
    ensures Dispatch(Intents, ResetPasswordMessage, svc) == Outcome(AccountReply, [])
  {
    ResetPasswordButtonRulesFrom0Pick0();
    StaticRuleAnswers(Intents, ResetPasswordMessage, svc, 0);
  }
  /** ResetPasswordMessage is answered by the account rule, through its second pattern. */
  lemma ResetPasswordButton(svc: Services)
    ensures Handle(Text(ResetPasswordMessage), svc, true) ==
      Handled(Replied(AccountReply), [SaveCall(ChatRecord(ResetPasswordMessage, AccountReply))])
  {
    ResetPasswordButtonDispatch(svc);
  }

  lemma BookFlightButtonNoResetPassword()
    ensures Exec(ResetPasswordPattern, BookFlightMessage).None?
  {
    NoMatchWithoutChar(ResetPasswordPattern, BookFlightMessage, 2, 4);
  }
  lemma BookFlightButtonAccountPatternsFrom1Fail()
    ensures FirstPattern(AccountRule.patterns, BookFlightMessage, 1).None?
  {
    BookFlightButtonNoResetPassword();
  }
  lemma BookFlightButtonNoLogin()
    ensures Exec(LoginPattern, BookFlightMessage).None?
  {
    NoMatchWithoutChar(LoginPattern, BookFlightMessage, 0, 4);
  }
  lemma BookFlightButtonAccountPatternsFrom0Fail()
    ensures FirstPattern(AccountRule.patterns, BookFlightMessage, 0).None?
  {
    BookFlightButtonNoLogin();
    BookFlightButtonAccountPatternsFrom1Fail();
  }
  lemma BookFlightButtonRule0Misses()
    ensures !RuleMatches(Intents[0], BookFlightMessage)
  {
    BookFlightButtonAccountPatternsFrom0Fail();
  }
  lemma BookFlightButtonDotRunAt12()
    ensures DotRun(BookFlightMessage, 12) == 19
  {
    var t := BookFlightMessage;
    assert forall n :: 12 <= n < 18 ==> !IsLineTerminator(t[n]);
    assert forall n :: 18 <= n < 24 ==> !IsLineTerminator(t[n]);
    assert forall n :: 24 <= n < 30 ==> !IsLineTerminator(t[n]);
    assert forall n :: 30 <= n < 31 ==> !IsLineTerminator(t[n]);
    DotRunIs(t, 12, 19);
  }
  lemma BookFlightButtonFlightAt15()
    ensures LitAt(BookFlightMessage, 15, "flight")
  {
    LitAtFrom(BookFlightMessage, 15, "flight");
  }
  lemma BookFlightButtonBookFlightPiece2At15()
    ensures MatchAt(BookFlightPattern, 2, BookFlightMessage, 15, []) == Some((21, []))
  {
    BookFlightButtonFlightAt15();
  }
  lemma BookFlightButtonBookFlightPiece2At12BacksOff9To3()
    ensures Backtrack(BookFlightPattern, 2, BookFlightMessage, 12, 9, 0, false, []) == Backtrack(BookFlightPattern, 2, BookFlightMessage, 12, 3, 0, false, [])
  {
    var t := BookFlightMessage;
    var p := BookFlightPattern;
    forall n | 16 <= n < 22 ensures Blocked(p[2], t, n) { HeadMismatch(t, n, "flight"); }
    BacktrackSkips(p, 2, t, 12, 9, 3, 0, false, []);
  }
  lemma BookFlightButtonBookFlightPiece2At12BacksOff15To9()
    ensures Backtrack(BookFlightPattern, 2, BookFlightMessage, 12, 15, 0, false, []) == Backtrack(BookFlightPattern, 2, BookFlightMessage, 12, 9, 0, false, [])
  {
    var t := BookFlightMessage;
    var p := BookFlightPattern;
    forall n | 22 <= n < 28 ensures Blocked(p[2], t, n) { HeadMismatch(t, n, "flight"); }
    BacktrackSkips(p, 2, t, 12, 15, 9, 0, false, []);
  }
  lemma BookFlightButtonBookFlightPiece2At12BacksOff19To15()
    ensures Backtrack(BookFlightPattern, 2, BookFlightMessage, 12, 19, 0, false, []) == Backtrack(BookFlightPattern, 2, BookFlightMessage, 12, 15, 0, false, [])
  {
    var t := BookFlightMessage;
    var p := BookFlightPattern;
    forall n | 28 <= n < 32 ensures Blocked(p[2], t, n) { HeadMismatch(t, n, "flight"); }
    BacktrackSkips(p, 2, t, 12, 19, 15, 0, false, []);
  }
  lemma BookFlightButtonBookFlightPiece1At12()
    ensures MatchAt(BookFlightPattern, 1, BookFlightMessage, 12, []) == Some((21, []))
  {
    BookFlightButtonDotRunAt12();
    BookFlightButtonBookFlightPiece2At15();
    BookFlightButtonBookFlightPiece2At12BacksOff9To3();
    BookFlightButtonBookFlightPiece2At12BacksOff15To9();
    BookFlightButtonBookFlightPiece2At12BacksOff19To15();
  }
  lemma BookFlightButtonBookAt8()
    ensures LitAt(BookFlightMessage, 8, "book")
  {
    LitAtFrom(BookFlightMessage, 8, "book");
  }
  lemma BookFlightButtonBookFlightPiece0At8()
    ensures MatchAt(BookFlightPattern, 0, BookFlightMessage, 8, []) == Some((21, []))
  {
    BookFlightButtonBookFlightPiece1At12();
    BookFlightButtonBookAt8();
  }
  lemma BookFlightButtonBookFlightSearchSkips6To8()
    ensures SearchFrom(BookFlightPattern, BookFlightMessage, 6) == SearchFrom(BookFlightPattern, BookFlightMessage, 8)
  {
    var t := BookFlightMessage;
    var p := BookFlightPattern;
    forall n | 6 <= n < 8 ensures Blocked(p[0], t, n) { HeadMismatch(t, n, "book"); }
    SearchSkips(p, t, 6, 8);
  }
  lemma BookFlightButtonBookFlightSearchSkips0To6()
    ensures SearchFrom(BookFlightPattern, BookFlightMessage, 0) == SearchFrom(BookFlightPattern, BookFlightMessage, 6)
  {
    var t := BookFlightMessage;
    var p := BookFlightPattern;
    forall n | 0 <= n < 6 ensures Blocked(p[0], t, n) { HeadMismatch(t, n, "book"); }
    SearchSkips(p, t, 0, 6);
  }
  lemma BookFlightButtonBookFlightMatches()
    ensures Exec(BookFlightPattern, BookFlightMessage).Some?
  {
    BookFlightButtonBookFlightPiece0At8();
    BookFlightButtonBookFlightSearchSkips6To8();
    BookFlightButtonBookFlightSearchSkips0To6();
  }
  lemma BookFlightButtonBookingPatternsFrom0Pick0()
    ensures FirstPattern(BookingRule.patterns, BookFlightMessage, 0) == Some(0)
  {
    BookFlightButtonBookFlightMatches();
  }
  lemma BookFlightButtonRule1PatternsFrom0Pick0()
    ensures FirstPattern(Intents[1].patterns, BookFlightMessage, 0) == Some(0)
  {
    BookFlightButtonBookingPatternsFrom0Pick0();
  }
  lemma BookFlightButtonRulesFrom1Pick1()
    ensures FirstRule(Intents, BookFlightMessage, 1) == Some(1)
  {
    BookFlightButtonRule1PatternsFrom0Pick0();
  }
  lemma BookFlightButtonRulesFrom0Pick1()
    ensures FirstRule(Intents, BookFlightMessage, 0) == Some(1)
  {
    BookFlightButtonRule0Misses();
    BookFlightButtonRulesFrom1Pick1();
  }
  lemma BookFlightButtonDispatch(svc: Services)
    ensures Dispatch(Intents, BookFlightMessage, svc) == Outcome(BookingReply, [])
  {
    BookFlightButtonRulesFrom0Pick1();
    StaticRuleAnswers(Intents, BookFlightMessage, svc, 1);
  }
  /** BookFlightMessage is answered by the booking rule. */
  lemma BookFlightButton(svc: Services)
    ensures Handle(Text(BookFlightMessage), svc, true) ==
      Handled(Replied(BookingReply), [SaveCall(ChatRecord(BookFlightMessage, BookingReply))])
  {
    BookFlightButtonDispatch(svc);
  }

  lemma WeatherButtonNoResetPassword()
    ensures Exec(ResetPasswordPattern, WeatherMessage).None?
  {
    NoMatchWithoutChar(ResetPasswordPattern, WeatherMessage, 2, 0);
  }
  lemma WeatherButtonAccountPatternsFrom1Fail()
    ensures FirstPattern(AccountRule.patterns, WeatherMessage, 1).None?
  {
    WeatherButtonNoResetPassword();
  }
  lemma WeatherButtonNoLogin()
    ensures Exec(LoginPattern, WeatherMessage).None?
  {
    NoMatchWithoutChar(LoginPattern, WeatherMessage, 0, 0);
  }
  lemma WeatherButtonAccountPatternsFrom0Fail()
    ensures FirstPattern(AccountRule.patterns, WeatherMessage, 0).None?
  {
    WeatherButtonNoLogin();
    WeatherButtonAccountPatternsFrom1Fail();
  }
  lemma WeatherButtonRule0Misses()
    ensures !RuleMatches(Intents[0], WeatherMessage)
  {
    WeatherButtonAccountPatternsFrom0Fail();
  }
  lemma WeatherButtonNoRentCar()
    ensures Exec(RentCarPattern, WeatherMessage).None?
  {
    NoMatchWithoutChar(RentCarPattern, WeatherMessage, 2, 0);
  }
  lemma WeatherButtonBookingPatternsFrom3Fail()
    ensures FirstPattern(BookingRule.patterns, WeatherMessage, 3).None?
  {
    WeatherButtonNoRentCar();
  }
  lemma WeatherButtonNoRentalCar()
    ensures Exec(RentalCarPattern, WeatherMessage).None?
  {
    NoMatchWithoutChar(RentalCarPattern, WeatherMessage, 0, 5);
  }
  lemma WeatherButtonBookingPatternsFrom2Fail()
    ensures FirstPattern(BookingRule.patterns, WeatherMessage, 2).None?
  {
    WeatherButtonNoRentalCar();
    WeatherButtonBookingPatternsFrom3Fail();
  }
  lemma WeatherButtonNoHotel()
    ensures Exec(HotelPattern, WeatherMessage).None?
  {
    NoMatchWithoutChar(HotelPattern, WeatherMessage, 0, 4);
  }
  lemma WeatherButtonBookingPatternsFrom1Fail()
    ensures FirstPattern(BookingRule.patterns, WeatherMessage, 1).None?
  {
    WeatherButtonNoHotel();
    WeatherButtonBookingPatternsFrom2Fail();
  }
  lemma WeatherButtonNoBookFlight()
    ensures Exec(BookFlightPattern, WeatherMessage).None?
  {
    NoMatchWithoutChar(BookFlightPattern, WeatherMessage, 0, 0);
  }
  lemma WeatherButtonBookingPatternsFrom0Fail()
    ensures FirstPattern(BookingRule.patterns, WeatherMessage, 0).None?
  {
    WeatherButtonNoBookFlight();
    WeatherButtonBookingPatternsFrom1Fail();
  }
  lemma WeatherButtonRule1Misses()
    ensures !RuleMatches(Intents[1], WeatherMessage)
  {
    WeatherButtonBookingPatternsFrom0Fail();
  }
  lemma WeatherButtonDotRunAt18()
    ensures DotRun(WeatherMessage, 18) == 13
  {
    var t := WeatherMessage;
    assert forall n :: 18 <= n < 24 ==> !IsLineTerminator(t[n]);
    assert forall n :: 24 <= n < 30 ==> !IsLineTerminator(t[n]);
    assert forall n :: 30 <= n < 31 ==> !IsLineTerminator(t[n]);
    DotRunIs(t, 18, 13);
  }
  lemma WeatherButtonWordRunAt22()
    ensures WordRun(WeatherMessage, 22) == 8
  {
    var t := WeatherMessage;
    assert forall n :: 22 <= n < 28 ==> InWordClass(t[n]);
    assert forall n :: 28 <= n < 30 ==> InWordClass(t[n]);
    WordRunIs(t, 22, 8);
  }
  lemma WeatherButtonWeatherInPiece3At22()
    ensures MatchAt(WeatherInPattern, 3, WeatherMessage, 22, []) == Some((30, [Some("New York")]))
  {
    WeatherButtonWordRunAt22();
    SliceIs(WeatherMessage, 22, "New York");
    assert [] + [Some(WeatherMessage[22..30])] == [Some("New York")];
  }
  lemma WeatherButtonInAt19()
    ensures LitAt(WeatherMessage, 19, "in ")
  {
    LitAtFrom(WeatherMessage, 19, "in ");
  }
  lemma WeatherButtonWeatherInPiece2At19()
    ensures MatchAt(WeatherInPattern, 2, WeatherMessage, 19, []) == Some((30, [Some("New York")]))
  {
    WeatherButtonWeatherInPiece3At22();
    WeatherButtonInAt19();
  }
  lemma WeatherButtonWeatherInPiece2At18BacksOff7To1()
    ensures Backtrack(WeatherInPattern, 2, WeatherMessage, 18, 7, 0, false, []) == Backtrack(WeatherInPattern, 2, WeatherMessage, 18, 1, 0, false, [])
  {
    var t := WeatherMessage;
    var p := WeatherInPattern;
    forall n | 20 <= n < 26 ensures Blocked(p[2], t, n) { HeadMismatch(t, n, "in "); }
    BacktrackSkips(p, 2, t, 18, 7, 1, 0, false, []);
  }
  lemma WeatherButtonWeatherInPiece2At18BacksOff13To7()
    ensures Backtrack(WeatherInPattern, 2, WeatherMessage, 18, 13, 0, false, []) == Backtrack(WeatherInPattern, 2, WeatherMessage, 18, 7, 0, false, [])
  {
    var t := WeatherMessage;
    var p := WeatherInPattern;
    forall n | 26 <= n < 32 ensures Blocked(p[2], t, n) { HeadMismatch(t, n, "in "); }
    BacktrackSkips(p, 2, t, 18, 13, 7, 0, false, []);
  }
  lemma WeatherButtonWeatherInPiece1At18()
    ensures MatchAt(WeatherInPattern, 1, WeatherMessage, 18, []) == Some((30, [Some("New York")]))
  {
    WeatherButtonDotRunAt18();
    WeatherButtonWeatherInPiece2At19();
    WeatherButtonWeatherInPiece2At18BacksOff7To1();
    WeatherButtonWeatherInPiece2At18BacksOff13To7();
  }
  lemma WeatherButtonWeatherAt11()
    ensures LitAt(WeatherMessage, 11, "weather")
  {
    LitAtFrom(WeatherMessage, 11, "weather");
  }
  lemma WeatherButtonWeatherInPiece0At11()
    ensures MatchAt(WeatherInPattern, 0, WeatherMessage, 11, []) == Some((30, [Some("New York")]))
  {
    WeatherButtonWeatherInPiece1At18();
    WeatherButtonWeatherAt11();
  }
  lemma WeatherButtonWeatherInSearchSkips6To11()
    ensures SearchFrom(WeatherInPattern, WeatherMessage, 6) == SearchFrom(WeatherInPattern, WeatherMessage, 11)
  {
    var t := WeatherMessage;
    var p := WeatherInPattern;
    forall n | 6 <= n < 11 ensures Blocked(p[0], t, n) { HeadMismatch(t, n, "weather"); }
    SearchSkips(p, t, 6, 11);
  }
  lemma WeatherButtonNoWeatherAt0()
    ensures !LitAt(WeatherMessage, 0, "weather")
  {
    MismatchAt(WeatherMessage, 0, "weather", 1);
  }
  lemma WeatherButtonWeatherInSearchSkips0To6()
    ensures SearchFrom(WeatherInPattern, WeatherMessage, 0) == SearchFrom(WeatherInPattern, WeatherMessage, 6)
  {
    var t := WeatherMessage;
    var p := WeatherInPattern;
    forall n | 0 <= n < 6 ensures Blocked(p[0], t, n) {
      if n == 0 { WeatherButtonNoWeatherAt0(); } else { HeadMismatch(t, n, "weather"); }
    }
    SearchSkips(p, t, 0, 6);
  }
  lemma WeatherButtonWeatherInCaptures()
    ensures Exec(WeatherInPattern, WeatherMessage).Some? && Group(Exec(WeatherInPattern, WeatherMessage).value, CityGroup) == Some("New York")
  {
    WeatherButtonWeatherInPiece0At11();
    WeatherButtonWeatherInSearchSkips6To11();
    WeatherButtonWeatherInSearchSkips0To6();
  }
  lemma WeatherButtonWeatherPatternsFrom0Pick0()
    ensures FirstPattern(WeatherRule.patterns, WeatherMessage, 0) == Some(0)
  {
    WeatherButtonWeatherInCaptures();
  }
  lemma WeatherButtonRule2PatternsFrom0Pick0()
    ensures FirstPattern(Intents[2].patterns, WeatherMessage, 0) == Some(0)
  {
    WeatherButtonWeatherPatternsFrom0Pick0();
  }
  lemma WeatherButtonRulesFrom2Pick2()
    ensures FirstRule(Intents, WeatherMessage, 2) == Some(2)
  {
    WeatherButtonRule2PatternsFrom0Pick0();
  }
  lemma WeatherButtonRulesFrom1Pick2()
    ensures FirstRule(Intents, WeatherMessage, 1) == Some(2)
  {
    WeatherButtonRule1Misses();
    WeatherButtonRulesFrom2Pick2();
  }
  lemma WeatherButtonRulesFrom0Pick2()
    ensures FirstRule(Intents, WeatherMessage, 0) == Some(2)
  {
    WeatherButtonRule0Misses();
    WeatherButtonRulesFrom1Pick2();
  }
  lemma WeatherButtonRule2Pattern0Captures()
    ensures Exec(Intents[2].patterns[0], WeatherMessage).Some? &&
      Group(Exec(Intents[2].patterns[0], WeatherMessage).value, CityGroup) == Some("New York")
  {
    WeatherButtonWeatherInCaptures();
  }
  lemma WeatherButtonDispatch(svc: Services)
    ensures Dispatch(Intents, WeatherMessage, svc) == Outcome(GetWeather(svc, Some("New York")), [WeatherCall(Some("New York"))])
  {
    WeatherButtonRulesFrom0Pick2();
    WeatherButtonRule2PatternsFrom0Pick0();
    WeatherButtonRule2Pattern0Captures();
    WeatherRuleAnswers(Intents, WeatherMessage, svc, 2);
  }
  /** WeatherMessage looks up the weather for "New York" and answers with that line. */
  lemma WeatherButton(svc: Services)
    ensures Handle(Text(WeatherMessage), svc, true) ==
      Handled(Replied(GetWeather(svc, Some("New York"))), [WeatherCall(Some("New York")), SaveCall(ChatRecord(WeatherMessage, GetWeather(svc, Some("New York"))))])
  {
    WeatherButtonDispatch(svc);
  }

  lemma ForecastButtonNoResetPassword()
    ensures Exec(ResetPasswordPattern, ForecastMessage).None?
  {
    NoMatchWithoutChar(ResetPasswordPattern, ForecastMessage, 0, 2);
  }
  lemma ForecastButtonAccountPatternsFrom1Fail()
    ensures FirstPattern(AccountRule.patterns, ForecastMessage, 1).None?
  {
    ForecastButtonNoResetPassword();
  }
  lemma ForecastButtonNoLogin()
    ensures Exec(LoginPattern, ForecastMessage).None?
  {
    NoMatchWithoutChar(LoginPattern, ForecastMessage, 0, 2);
  }
  lemma ForecastButtonAccountPatternsFrom0Fail()
    ensures FirstPattern(AccountRule.patterns, ForecastMessage, 0).None?
  {
    ForecastButtonNoLogin();
    ForecastButtonAccountPatternsFrom1Fail();
  }
  lemma ForecastButtonRule0Misses()
    ensures !RuleMatches(Intents[0], ForecastMessage)
  {
    ForecastButtonAccountPatternsFrom0Fail();
  }
  lemma ForecastButtonNoRentCar()
    ensures Exec(RentCarPattern, ForecastMessage).None?
  {
    NoMatchWithoutChar(RentCarPattern, ForecastMessage, 2, 0);
  }
  lemma ForecastButtonBookingPatternsFrom3Fail()
    ensures FirstPattern(BookingRule.patterns, ForecastMessage, 3).None?
  {
    ForecastButtonNoRentCar();
  }
  lemma ForecastButtonNoRentalCar()
    ensures Exec(RentalCarPattern, ForecastMessage).None?
  {
    NoMatchWithoutChar(RentalCarPattern, ForecastMessage, 2, 0);
  }
  lemma ForecastButtonBookingPatternsFrom2Fail()
    ensures FirstPattern(BookingRule.patterns, ForecastMessage, 2).None?
  {
    ForecastButtonNoRentalCar();
    ForecastButtonBookingPatternsFrom3Fail();
  }
  lemma ForecastButtonNoHotel()
    ensures Exec(HotelPattern, ForecastMessage).None?
  {
    NoMatchWithoutChar(HotelPattern, ForecastMessage, 0, 0);
  }
  lemma ForecastButtonBookingPatternsFrom1Fail()
    ensures FirstPattern(BookingRule.patterns, ForecastMessage, 1).None?
  {
    ForecastButtonNoHotel();
    ForecastButtonBookingPatternsFrom2Fail();
  }
  lemma ForecastButtonNoBookFlight()
    ensures Exec(BookFlightPattern, ForecastMessage).None?
  {
    NoMatchWithoutChar(BookFlightPattern, ForecastMessage, 0, 3);
  }
  lemma ForecastButtonBookingPatternsFrom0Fail()
    ensures FirstPattern(BookingRule.patterns, ForecastMessage, 0).None?
  {
    ForecastButtonNoBookFlight();
    ForecastButtonBookingPatternsFrom1Fail();
  }
  lemma ForecastButtonRule1Misses()
    ensures !RuleMatches(Intents[1], ForecastMessage)
  {
    ForecastButtonBookingPatternsFrom0Fail();
  }
  lemma ForecastButtonNoHowWeather()
    ensures Exec(HowWeatherPattern, ForecastMessage).None?
  {
    NoMatchWithoutChar(HowWeatherPattern, ForecastMessage, 0, 0);
  }
  lemma ForecastButtonWeatherPatternsFrom2Fail()
    ensures FirstPattern(WeatherRule.patterns, ForecastMessage, 2).None?
  {
    ForecastButtonNoHowWeather();
  }
  lemma ForecastButtonNoWhatWeather()
    ensures Exec(WhatWeatherPattern, ForecastMessage).None?
  {
    NoMatchWithoutChar(WhatWeatherPattern, ForecastMessage, 0, 1);
  }
  lemma ForecastButtonWeatherPatternsFrom1Fail()
    ensures FirstPattern(WeatherRule.patterns, ForecastMessage, 1).None?
  {
    ForecastButtonNoWhatWeather();
    ForecastButtonWeatherPatternsFrom2Fail();
  }
  lemma ForecastButtonNoWeatherIn()
    ensures Exec(WeatherInPattern, ForecastMessage).None?
  {
    NoMatchWithoutChar(WeatherInPattern, ForecastMessage, 0, 4);
  }
  lemma ForecastButtonWeatherPatternsFrom0Fail()
    ensures FirstPattern(WeatherRule.patterns, ForecastMessage, 0).None?
  {
    ForecastButtonNoWeatherIn();
    ForecastButtonWeatherPatternsFrom1Fail();
  }
  lemma ForecastButtonRule2Misses()
    ensures !RuleMatches(Intents[2], ForecastMessage)
  {
    ForecastButtonWeatherPatternsFrom0Fail();
  }
  lemma ForecastButtonDotRunAt12()
    ensures DotRun(ForecastMessage, 12) == 20
  {
    var t := ForecastMessage;
    assert forall n :: 12 <= n < 18 ==> !IsLineTerminator(t[n]);
    assert forall n :: 18 <= n < 24 ==> !IsLineTerminator(t[n]);
    assert forall n :: 24 <= n < 30 ==> !IsLineTerminator(t[n]);
    assert forall n :: 30 <= n < 32 ==> !IsLineTerminator(t[n]);
    DotRunIs(t, 12, 20);
  }
  lemma ForecastButtonWordRunAt25()
    ensures WordRun(ForecastMessage, 25) == 6
  {
    var t := ForecastMessage;
    assert forall n :: 25 <= n < 31 ==> InWordClass(t[n]);
    WordRunIs(t, 25, 6);
  }
  lemma ForecastButtonWillItRainPiece3At25()
    ensures MatchAt(WillItRainPattern, 3, ForecastMessage, 25, []) == Some((31, [Some("Berlin")]))
  {
    ForecastButtonWordRunAt25();
    SliceIs(ForecastMessage, 25, "Berlin");
    assert [] + [Some(ForecastMessage[25..31])] == [Some("Berlin")];
  }
  lemma ForecastButtonInAt22()
    ensures LitAt(ForecastMessage, 22, "in ")
  {
    LitAtFrom(ForecastMessage, 22, "in ");
  }
  lemma ForecastButtonWillItRainPiece2At22()
    ensures MatchAt(WillItRainPattern, 2, ForecastMessage, 22, []) == Some((31, [Some("Berlin")]))
  {
    ForecastButtonWillItRainPiece3At25();
    ForecastButtonInAt22();
  }
  lemma ForecastButtonWillItRainPiece2At12BacksOff16To10()
    ensures Backtrack(WillItRainPattern, 2, ForecastMessage, 12, 16, 0, false, []) == Backtrack(WillItRainPattern, 2, ForecastMessage, 12, 10, 0, false, [])
  {
    var t := ForecastMessage;
    var p := WillItRainPattern;
    forall n | 23 <= n < 29 ensures Blocked(p[2], t, n) { HeadMismatch(t, n, "in "); }
    BacktrackSkips(p, 2, t, 12, 16, 10, 0, false, []);
  }
  lemma ForecastButtonNoInAt29()
    ensures !LitAt(ForecastMessage, 29, "in ")
  {
    MismatchAt(ForecastMessage, 29, "in ", 2);
  }
  lemma ForecastButtonWillItRainPiece2At12BacksOff20To16()
    ensures Backtrack(WillItRainPattern, 2, ForecastMessage, 12, 20, 0, false, []) == Backtrack(WillItRainPattern, 2, ForecastMessage, 12, 16, 0, false, [])
  {
    var t := ForecastMessage;
    var p := WillItRainPattern;
    forall n | 29 <= n < 33 ensures Blocked(p[2], t, n) {
      if n == 29 { ForecastButtonNoInAt29(); } else { HeadMismatch(t, n, "in "); }
    }
    BacktrackSkips(p, 2, t, 12, 20, 16, 0, false, []);
  }
  lemma ForecastButtonWillItRainPiece1At12()
    ensures MatchAt(WillItRainPattern, 1, ForecastMessage, 12, []) == Some((31, [Some("Berlin")]))
  {
    ForecastButtonDotRunAt12();
    ForecastButtonWillItRainPiece2At22();
    ForecastButtonWillItRainPiece2At12BacksOff16To10();
    ForecastButtonWillItRainPiece2At12BacksOff20To16();
  }
  lemma ForecastButtonWillItRainAt0()
    ensures LitAt(ForecastMessage, 0, "will it rain")
  {
    LitAtFrom(ForecastMessage, 0, "will it rain");
  }
  lemma ForecastButtonWillItRainPiece0At0()
    ensures MatchAt(WillItRainPattern, 0, ForecastMessage, 0, []) == Some((31, [Some("Berlin")]))
  {
    ForecastButtonWillItRainPiece1At12();
    ForecastButtonWillItRainAt0();
  }
  lemma ForecastButtonWillItRainCaptures()
    ensures Exec(WillItRainPattern, ForecastMessage).Some? && Group(Exec(WillItRainPattern, ForecastMessage).value, CityGroup) == Some("Berlin")
  {
    ForecastButtonWillItRainPiece0At0();
  }
  lemma ForecastButtonForecastPatternsFrom0Pick0()
    ensures FirstPattern(ForecastRule.patterns, ForecastMessage, 0) == Some(0)
  {
    ForecastButtonWillItRainCaptures();
  }
  lemma ForecastButtonRule3PatternsFrom0Pick0()
    ensures FirstPattern(Intents[3].patterns, ForecastMessage, 0) == Some(0)
  {
    ForecastButtonForecastPatternsFrom0Pick0();
  }
  lemma ForecastButtonRulesFrom3Pick3()
    ensures FirstRule(Intents, ForecastMessage, 3) == Some(3)
  {
    ForecastButtonRule3PatternsFrom0Pick0();
  }
  lemma ForecastButtonRulesFrom2Pick3()
    ensures FirstRule(Intents, ForecastMessage, 2) == Some(3)
  {
    ForecastButtonRule2Misses();
    ForecastButtonRulesFrom3Pick3();
  }
  lemma ForecastButtonRulesFrom1Pick3()
    ensures FirstRule(Intents, ForecastMessage, 1) == Some(3)
  {
    ForecastButtonRule1Misses();
    ForecastButtonRulesFrom2Pick3();
  }
  lemma ForecastButtonRulesFrom0Pick3()
    ensures FirstRule(Intents, ForecastMessage, 0) == Some(3)
  {
    ForecastButtonRule0Misses();
    ForecastButtonRulesFrom1Pick3();
  }
  lemma ForecastButtonRule3Pattern0Captures()
    ensures Exec(Intents[3].patterns[0], ForecastMessage).Some? &&
      Group(Exec(Intents[3].patterns[0], ForecastMessage).value, CityGroup) == Some("Berlin")
  {
    ForecastButtonWillItRainCaptures();
  }
  lemma ForecastButtonDispatch(svc: Services)
    ensures Dispatch(Intents, ForecastMessage, svc) == Outcome(GetWeather(svc, Some("Berlin")), [WeatherCall(Some("Berlin"))])
  {
    ForecastButtonRulesFrom0Pick3();
    ForecastButtonRule3PatternsFrom0Pick0();
    ForecastButtonRule3Pattern0Captures();
    WeatherRuleAnswers(Intents, ForecastMessage, svc, 3);
  }
  /** ForecastMessage looks up the weather for "Berlin" through the forecast rule. */
  lemma ForecastButton(svc: Services)
    ensures Handle(Text(ForecastMessage), svc, true) ==
      Handled(Replied(GetWeather(svc, Some("Berlin"))), [WeatherCall(Some("Berlin")), SaveCall(ChatRecord(ForecastMessage, GetWeather(svc, Some("Berlin"))))])
  {
    ForecastButtonDispatch(svc);
  }

  lemma ExchangeButtonNoResetPassword()
    ensures Exec(ResetPasswordPattern, ExchangeMessage).None?
  {
    NoMatchWithoutChar(ResetPasswordPattern, ExchangeMessage, 2, 0);
  }
  lemma ExchangeButtonAccountPatternsFrom1Fail()
    ensures FirstPattern(AccountRule.patterns, ExchangeMessage, 1).None?
  {
    ExchangeButtonNoResetPassword();
  }
  lemma ExchangeButtonNoLogin()
    ensures Exec(LoginPattern, ExchangeMessage).None?
  {
    NoMatchWithoutChar(LoginPattern, ExchangeMessage, 0, 0);
  }
  lemma ExchangeButtonAccountPatternsFrom0Fail()
    ensures FirstPattern(AccountRule.patterns, ExchangeMessage, 0).None?
  {
    ExchangeButtonNoLogin();
    ExchangeButtonAccountPatternsFrom1Fail();
  }
  lemma ExchangeButtonRule0Misses()
    ensures !RuleMatches(Intents[0], ExchangeMessage)
  {
    ExchangeButtonAccountPatternsFrom0Fail();
  }
  lemma ExchangeButtonNoRentCar()
    ensures Exec(RentCarPattern, ExchangeMessage).None?
  {
    assert RentCarPattern[0].text[0] == 'r' && RentCarPattern[0].text[1] == 'e';
    NoMatchWithoutPair(RentCarPattern, ExchangeMessage, 0, 0);
  }
  lemma ExchangeButtonBookingPatternsFrom3Fail()
    ensures FirstPattern(BookingRule.patterns, ExchangeMessage, 3).None?
  {
    ExchangeButtonNoRentCar();
  }
  lemma ExchangeButtonNoRentalCar()
    ensures Exec(RentalCarPattern, ExchangeMessage).None?
  {
    NoMatchWithoutChar(RentalCarPattern, ExchangeMessage, 0, 5);
  }
  lemma ExchangeButtonBookingPatternsFrom2Fail()
    ensures FirstPattern(BookingRule.patterns, ExchangeMessage, 2).None?
  {
    ExchangeButtonNoRentalCar();
    ExchangeButtonBookingPatternsFrom3Fail();
  }
  lemma ExchangeButtonNoHotel()
    ensures Exec(HotelPattern, ExchangeMessage).None?
  {
    NoMatchWithoutChar(HotelPattern, ExchangeMessage, 0, 4);
  }
  lemma ExchangeButtonBookingPatternsFrom1Fail()
    ensures FirstPattern(BookingRule.patterns, ExchangeMessage, 1).None?
  {
    ExchangeButtonNoHotel();
    ExchangeButtonBookingPatternsFrom2Fail();
  }
  lemma ExchangeButtonNoBookFlight()
    ensures Exec(BookFlightPattern, ExchangeMessage).None?
  {
    NoMatchWithoutChar(BookFlightPattern, ExchangeMessage, 0, 0);
  }
  lemma ExchangeButtonBookingPatternsFrom0Fail()
    ensures FirstPattern(BookingRule.patterns, ExchangeMessage, 0).None?
  {
    ExchangeButtonNoBookFlight();
    ExchangeButtonBookingPatternsFrom1Fail();
  }
  lemma ExchangeButtonRule1Misses()
    ensures !RuleMatches(Intents[1], ExchangeMessage)
  {
    ExchangeButtonBookingPatternsFrom0Fail();
  }
  lemma ExchangeButtonNoHowWeather()
    ensures Exec(HowWeatherPattern, ExchangeMessage).None?
  {
    NoMatchWithoutChar(HowWeatherPattern, ExchangeMessage, 4, 0);
  }
  lemma ExchangeButtonWeatherPatternsFrom2Fail()
    ensures FirstPattern(WeatherRule.patterns, ExchangeMessage, 2).None?
  {
    ExchangeButtonNoHowWeather();
  }
  lemma ExchangeButtonNoWhatWeather()
    ensures Exec(WhatWeatherPattern, ExchangeMessage).None?
  {
    NoMatchWithoutChar(WhatWeatherPattern, ExchangeMessage, 4, 0);
  }
  lemma ExchangeButtonWeatherPatternsFrom1Fail()
    ensures FirstPattern(WeatherRule.patterns, ExchangeMessage, 1).None?
  {
    ExchangeButtonNoWhatWeather();
    ExchangeButtonWeatherPatternsFrom2Fail();
  }
  lemma ExchangeButtonNoWeatherIn()
    ensures Exec(WeatherInPattern, ExchangeMessage).None?
  {
    NoMatchWithoutChar(WeatherInPattern, ExchangeMessage, 2, 0);
  }
  lemma ExchangeButtonWeatherPatternsFrom0Fail()
    ensures FirstPattern(WeatherRule.patterns, ExchangeMessage, 0).None?
  {
    ExchangeButtonNoWeatherIn();
    ExchangeButtonWeatherPatternsFrom1Fail();
  }
  lemma ExchangeButtonRule2Misses()
    ensures !RuleMatches(Intents[2], ExchangeMessage)
  {
    ExchangeButtonWeatherPatternsFrom0Fail();
  }
  lemma ExchangeButtonNoRainTomorrow()
    ensures Exec(RainTomorrowPattern, ExchangeMessage).None?
  {
    NoMatchWithoutChar(RainTomorrowPattern, ExchangeMessage, 0, 2);
  }
  lemma ExchangeButtonForecastPatternsFrom2Fail()
    ensures FirstPattern(ForecastRule.patterns, ExchangeMessage, 2).None?
  {
    ExchangeButtonNoRainTomorrow();
  }
  lemma ExchangeButtonNoForecastIn()
    ensures Exec(ForecastInPattern, ExchangeMessage).None?
  {
    NoMatchWithoutChar(ForecastInPattern, ExchangeMessage, 2, 0);
  }
  lemma ExchangeButtonForecastPatternsFrom1Fail()
    ensures FirstPattern(ForecastRule.patterns, ExchangeMessage, 1).None?
  {
    ExchangeButtonNoForecastIn();
    ExchangeButtonForecastPatternsFrom2Fail();
  }
  lemma ExchangeButtonNoWillItRain()
    ensures Exec(WillItRainPattern, ExchangeMessage).None?
  {
    NoMatchWithoutChar(WillItRainPattern, ExchangeMessage, 0, 1);
  }
  lemma ExchangeButtonForecastPatternsFrom0Fail()
    ensures FirstPattern(ForecastRule.patterns, ExchangeMessage, 0).None?
  {
    ExchangeButtonNoWillItRain();
    ExchangeButtonForecastPatternsFrom1Fail();
  }
  lemma ExchangeButtonRule3Misses()
    ensures !RuleMatches(Intents[3], ExchangeMessage)
  {
    ExchangeButtonForecastPatternsFrom0Fail();
  }
  lemma ExchangeButtonDotRunAt19()
    ensures DotRun(ExchangeMessage, 19) == 21
  {
    var t := ExchangeMessage;
    assert forall n :: 19 <= n < 25 ==> !IsLineTerminator(t[n]);
    assert forall n :: 25 <= n < 31 ==> !IsLineTerminator(t[n]);
    assert forall n :: 31 <= n < 37 ==> !IsLineTerminator(t[n]);
    assert forall n :: 37 <= n < 40 ==> !IsLineTerminator(t[n]);
    DotRunIs(t, 19, 21);
  }
  lemma ExchangeButtonRateAt20()
    ensures LitAt(ExchangeMessage, 20, "rate")
  {
    LitAtFrom(ExchangeMessage, 20, "rate");
  }
  lemma ExchangeButtonExchangeRatePiece2At20()
    ensures MatchAt(ExchangeRatePattern, 2, ExchangeMessage, 20, []) == Some((24, []))
  {
    ExchangeButtonRateAt20();
  }
  lemma ExchangeButtonExchangeRatePiece2At19BacksOff7To1()
    ensures Backtrack(ExchangeRatePattern, 2, ExchangeMessage, 19, 7, 0, false, []) == Backtrack(ExchangeRatePattern, 2, ExchangeMessage, 19, 1, 0, false, [])
  {
    var t := ExchangeMessage;
    var p := ExchangeRatePattern;
    forall n | 21 <= n < 27 ensures Blocked(p[2], t, n) { HeadMismatch(t, n, "rate"); }
    BacktrackSkips(p, 2, t, 19, 7, 1, 0, false, []);
  }
  lemma ExchangeButtonNoRateAt27()
    ensures !LitAt(ExchangeMessage, 27, "rate")
  {
    MismatchAt(ExchangeMessage, 27, "rate", 1);
  }
  lemma ExchangeButtonExchangeRatePiece2At19BacksOff13To7()
    ensures Backtrack(ExchangeRatePattern, 2, ExchangeMessage, 19, 13, 0, false, []) == Backtrack(ExchangeRatePattern, 2, ExchangeMessage, 19, 7, 0, false, [])
  {
    var t := ExchangeMessage;
    var p := ExchangeRatePattern;
    forall n | 27 <= n < 33 ensures Blocked(p[2], t, n) {
      if n == 27 { ExchangeButtonNoRateAt27(); } else { HeadMismatch(t, n, "rate"); }
    }
    BacktrackSkips(p, 2, t, 19, 13, 7, 0, false, []);
  }
  lemma ExchangeButtonNoRateAt38()
    ensures !LitAt(ExchangeMessage, 38, "rate")
  {
    MismatchAt(ExchangeMessage, 38, "rate", 1);
  }
  lemma ExchangeButtonExchangeRatePiece2At19BacksOff19To13()
    ensures Backtrack(ExchangeRatePattern, 2, ExchangeMessage, 19, 19, 0, false, []) == Backtrack(ExchangeRatePattern, 2, ExchangeMessage, 19, 13, 0, false, [])
  {
    var t := ExchangeMessage;
    var p := ExchangeRatePattern;
    forall n | 33 <= n < 39 ensures Blocked(p[2], t, n) {
      if n == 38 { ExchangeButtonNoRateAt38(); } else { HeadMismatch(t, n, "rate"); }
    }
    BacktrackSkips(p, 2, t, 19, 19, 13, 0, false, []);
  }
  lemma ExchangeButtonExchangeRatePiece2At19BacksOff21To19()
    ensures Backtrack(ExchangeRatePattern, 2, ExchangeMessage, 19, 21, 0, false, []) == Backtrack(ExchangeRatePattern, 2, ExchangeMessage, 19, 19, 0, false, [])
  {
    var t := ExchangeMessage;
    var p := ExchangeRatePattern;
    forall n | 39 <= n < 41 ensures Blocked(p[2], t, n) { HeadMismatch(t, n, "rate"); }
    BacktrackSkips(p, 2, t, 19, 21, 19, 0, false, []);
  }
  lemma ExchangeButtonExchangeRatePiece1At19()
    ensures MatchAt(ExchangeRatePattern, 1, ExchangeMessage, 19, []) == Some((24, []))
  {
    ExchangeButtonDotRunAt19();
    ExchangeButtonExchangeRatePiece2At20();
    ExchangeButtonExchangeRatePiece2At19BacksOff7To1();
    ExchangeButtonExchangeRatePiece2At19BacksOff13To7();
    ExchangeButtonExchangeRatePiece2At19BacksOff19To13();
    ExchangeButtonExchangeRatePiece2At19BacksOff21To19();
  }
  lemma ExchangeButtonExchangeAt11()
    ensures LitAt(ExchangeMessage, 11, "exchange")
  {
    LitAtFrom(ExchangeMessage, 11, "exchange");
  }
  lemma ExchangeButtonExchangeRatePiece0At11()
    ensures MatchAt(ExchangeRatePattern, 0, ExchangeMessage, 11, []) == Some((24, []))
  {
    ExchangeButtonExchangeRatePiece1At19();
    ExchangeButtonExchangeAt11();
  }
  lemma ExchangeButtonNoExchangeAt9()
    ensures !LitAt(ExchangeMessage, 9, "exchange")
  {
    MismatchAt(ExchangeMessage, 9, "exchange", 1);
  }
  lemma ExchangeButtonExchangeRateSearchSkips6To11()
    ensures SearchFrom(ExchangeRatePattern, ExchangeMessage, 6) == SearchFrom(ExchangeRatePattern, ExchangeMessage, 11)
  {
    var t := ExchangeMessage;
    var p := ExchangeRatePattern;
    forall n | 6 <= n < 11 ensures Blocked(p[0], t, n) {
      if n == 9 { ExchangeButtonNoExchangeAt9(); } else { HeadMismatch(t, n, "exchange"); }
    }
    SearchSkips(p, t, 6, 11);
  }
  lemma ExchangeButtonExchangeRateSearchSkips0To6()
    ensures SearchFrom(ExchangeRatePattern, ExchangeMessage, 0) == SearchFrom(ExchangeRatePattern, ExchangeMessage, 6)
  {
    var t := ExchangeMessage;
    var p := ExchangeRatePattern;
    forall n | 0 <= n < 6 ensures Blocked(p[0], t, n) { HeadMismatch(t, n, "exchange"); }
    SearchSkips(p, t, 0, 6);
  }
  lemma ExchangeButtonExchangeRateMatches()
    ensures Exec(ExchangeRatePattern, ExchangeMessage).Some?
  {
    ExchangeButtonExchangeRatePiece0At11();
    ExchangeButtonExchangeRateSearchSkips6To11();
    ExchangeButtonExchangeRateSearchSkips0To6();
  }
  lemma ExchangeButtonTravelPatternsFrom2Pick2()
    ensures FirstPattern(TravelRule.patterns, ExchangeMessage, 2) == Some(2)
  {
    ExchangeButtonExchangeRateMatches();
  }
  lemma ExchangeButtonNoNeedVisa()
    ensures Exec(NeedVisaPattern, ExchangeMessage).None?
  {
    NoMatchWithoutChar(NeedVisaPattern, ExchangeMessage, 0, 3);
  }
  lemma ExchangeButtonTravelPatternsFrom1Pick2()
    ensures FirstPattern(TravelRule.patterns, ExchangeMessage, 1) == Some(2)
  {
    ExchangeButtonNoNeedVisa();
    ExchangeButtonTravelPatternsFrom2Pick2();
  }
  lemma ExchangeButtonNoVisa()
    ensures Exec(VisaPattern, ExchangeMessage).None?
  {
    NoMatchWithoutChar(VisaPattern, ExchangeMessage, 0, 0);
  }
  lemma ExchangeButtonTravelPatternsFrom0Pick2()
    ensures FirstPattern(TravelRule.patterns, ExchangeMessage, 0) == Some(2)
  {
    ExchangeButtonNoVisa();
    ExchangeButtonTravelPatternsFrom1Pick2();
  }
  lemma ExchangeButtonRule4PatternsFrom0Pick2()
    ensures FirstPattern(Intents[4].patterns, ExchangeMessage, 0) == Some(2)
  {
    ExchangeButtonTravelPatternsFrom0Pick2();
  }
  lemma ExchangeButtonRulesFrom4Pick4()
    ensures FirstRule(Intents, ExchangeMessage, 4) == Some(4)
  {
    ExchangeButtonRule4PatternsFrom0Pick2();
  }
  lemma ExchangeButtonRulesFrom3Pick4()
    ensures FirstRule(Intents, ExchangeMessage, 3) == Some(4)
  {
    ExchangeButtonRule3Misses();
    ExchangeButtonRulesFrom4Pick4();
  }
  lemma ExchangeButtonRulesFrom2Pick4()
    ensures FirstRule(Intents, ExchangeMessage, 2) == Some(4)
  {
    ExchangeButtonRule2Misses();
    ExchangeButtonRulesFrom3Pick4();
  }
  lemma ExchangeButtonRulesFrom1Pick4()
    ensures FirstRule(Intents, ExchangeMessage, 1) == Some(4)
  {
    ExchangeButtonRule1Misses();
    ExchangeButtonRulesFrom2Pick4();
  }
  lemma ExchangeButtonRulesFrom0Pick4()
    ensures FirstRule(Intents, ExchangeMessage, 0) == Some(4)
  {
    ExchangeButtonRule0Misses();
    ExchangeButtonRulesFrom1Pick4();
  }
  lemma ExchangeButtonDispatch(svc: Services)
    ensures Dispatch(Intents, ExchangeMessage, svc) == Outcome(TravelReply, [])
  {
    ExchangeButtonRulesFrom0Pick4();
    StaticRuleAnswers(Intents, ExchangeMessage, svc, 4);
  }
  /** ExchangeMessage is answered by the travel rule. */
  lemma ExchangeButton(svc: Services)
    ensures Handle(Text(ExchangeMessage), svc, true) ==
      Handled(Replied(TravelReply), [SaveCall(ChatRecord(ExchangeMessage, TravelReply))])
  {
    ExchangeButtonDispatch(svc);
  }

  lemma TopSpotsButtonNoResetPassword()
    ensures Exec(ResetPasswordPattern, TopSpotsMessage).None?
  {
    assert ResetPasswordPattern[0].text[1] == 'e' && ResetPasswordPattern[0].text[2] == 's';
    NoMatchWithoutPair(ResetPasswordPattern, TopSpotsMessage, 0, 1);
  }
  lemma TopSpotsButtonAccountPatternsFrom1Fail()
    ensures FirstPattern(AccountRule.patterns, TopSpotsMessage, 1).None?
  {
    TopSpotsButtonNoResetPassword();
  }
  lemma TopSpotsButtonNoLogin()
    ensures Exec(LoginPattern, TopSpotsMessage).None?
  {
    NoMatchWithoutChar(LoginPattern, TopSpotsMessage, 0, 0);
  }
  lemma TopSpotsButtonAccountPatternsFrom0Fail()
    ensures FirstPattern(AccountRule.patterns, TopSpotsMessage, 0).None?
  {
    TopSpotsButtonNoLogin();
    TopSpotsButtonAccountPatternsFrom1Fail();
  }
  lemma TopSpotsButtonRule0Misses()
    ensures !RuleMatches(Intents[0], TopSpotsMessage)
  {
    TopSpotsButtonAccountPatternsFrom0Fail();
  }
  lemma TopSpotsButtonNoRentCar()
    ensures Exec(RentCarPattern, TopSpotsMessage).None?
  {
    NoMatchWithoutChar(RentCarPattern, TopSpotsMessage, 2, 0);
  }
  lemma TopSpotsButtonBookingPatternsFrom3Fail()
    ensures FirstPattern(BookingRule.patterns, TopSpotsMessage, 3).None?
  {
    TopSpotsButtonNoRentCar();
  }
  lemma TopSpotsButtonNoRentalCar()
    ensures Exec(RentalCarPattern, TopSpotsMessage).None?
  {
    NoMatchWithoutChar(RentalCarPattern, TopSpotsMessage, 0, 5);
  }
  lemma TopSpotsButtonBookingPatternsFrom2Fail()
    ensures FirstPattern(BookingRule.patterns, TopSpotsMessage, 2).None?
  {
    TopSpotsButtonNoRentalCar();
    TopSpotsButtonBookingPatternsFrom3Fail();
  }
  lemma TopSpotsButtonNoHotel()
    ensures Exec(HotelPattern, TopSpotsMessage).None?
  {
    NoMatchWithoutChar(HotelPattern, TopSpotsMessage, 0, 4);
  }
  lemma TopSpotsButtonBookingPatternsFrom1Fail()
    ensures FirstPattern(BookingRule.patterns, TopSpotsMessage, 1).None?
  {
    TopSpotsButtonNoHotel();
    TopSpotsButtonBookingPatternsFrom2Fail();
  }
  lemma TopSpotsButtonNoBookFlight()
    ensures Exec(BookFlightPattern, TopSpotsMessage).None?
  {
    NoMatchWithoutChar(BookFlightPattern, TopSpotsMessage, 0, 0);
  }
  lemma TopSpotsButtonBookingPatternsFrom0Fail()
    ensures FirstPattern(BookingRule.patterns, TopSpotsMessage, 0).None?
  {
    TopSpotsButtonNoBookFlight();
    TopSpotsButtonBookingPatternsFrom1Fail();
  }
  lemma TopSpotsButtonRule1Misses()
    ensures !RuleMatches(Intents[1], TopSpotsMessage)
  {
    TopSpotsButtonBookingPatternsFrom0Fail();
  }
  lemma TopSpotsButtonNoHowWeather()
    ensures Exec(HowWeatherPattern, TopSpotsMessage).None?
  {
    assert HowWeatherPattern[0].text[0] == 'h' && HowWeatherPattern[0].text[1] == 'o';
    NoMatchWithoutPair(HowWeatherPattern, TopSpotsMessage, 0, 0);
  }
  lemma TopSpotsButtonWeatherPatternsFrom2Fail()
    ensures FirstPattern(WeatherRule.patterns, TopSpotsMessage, 2).None?
  {
    TopSpotsButtonNoHowWeather();
  }
  lemma TopSpotsButtonNoWhatWeather()
    ensures Exec(WhatWeatherPattern, TopSpotsMessage).None?
  {
    assert WhatWeatherPattern[2].text[0] == 'w' && WhatWeatherPattern[2].text[1] == 'e';
    NoMatchWithoutPair(WhatWeatherPattern, TopSpotsMessage, 2, 0);
  }
  lemma TopSpotsButtonWeatherPatternsFrom1Fail()
    ensures FirstPattern(WeatherRule.patterns, TopSpotsMessage, 1).None?
  {
    TopSpotsButtonNoWhatWeather();
    TopSpotsButtonWeatherPatternsFrom2Fail();
  }
  lemma TopSpotsButtonNoWeatherIn()
    ensures Exec(WeatherInPattern, TopSpotsMessage).None?
  {
    assert WeatherInPattern[0].text[0] == 'w' && WeatherInPattern[0].text[1] == 'e';
    NoMatchWithoutPair(WeatherInPattern, TopSpotsMessage, 0, 0);
  }
  lemma TopSpotsButtonWeatherPatternsFrom0Fail()
    ensures FirstPattern(WeatherRule.patterns, TopSpotsMessage, 0).None?
  {
    TopSpotsButtonNoWeatherIn();
    TopSpotsButtonWeatherPatternsFrom1Fail();
  }
  lemma TopSpotsButtonRule2Misses()
    ensures !RuleMatches(Intents[2], TopSpotsMessage)
  {
    TopSpotsButtonWeatherPatternsFrom0Fail();
  }
  lemma TopSpotsButtonNoRainTomorrow()
    ensures Exec(RainTomorrowPattern, TopSpotsMessage).None?
  {
    NoMatchWithoutChar(RainTomorrowPattern, TopSpotsMessage, 2, 2);
  }
  lemma TopSpotsButtonForecastPatternsFrom2Fail()
    ensures FirstPattern(ForecastRule.patterns, TopSpotsMessage, 2).None?
  {
    TopSpotsButtonNoRainTomorrow();
  }
  lemma TopSpotsButtonNoForecastIn()
    ensures Exec(ForecastInPattern, TopSpotsMessage).None?
  {
    NoMatchWithoutChar(ForecastInPattern, TopSpotsMessage, 0, 0);
  }
  lemma TopSpotsButtonForecastPatternsFrom1Fail()
    ensures FirstPattern(ForecastRule.patterns, TopSpotsMessage, 1).None?
  {
    TopSpotsButtonNoForecastIn();
    TopSpotsButtonForecastPatternsFrom2Fail();
  }
  lemma TopSpotsButtonNoWillItRain()
    ensures Exec(WillItRainPattern, TopSpotsMessage).None?
  {
    NoMatchWithoutChar(WillItRainPattern, TopSpotsMessage, 0, 2);
  }
  lemma TopSpotsButtonForecastPatternsFrom0Fail()
    ensures FirstPattern(ForecastRule.patterns, TopSpotsMessage, 0).None?
  {
    TopSpotsButtonNoWillItRain();
    TopSpotsButtonForecastPatternsFrom1Fail();
  }
  lemma TopSpotsButtonRule3Misses()
    ensures !RuleMatches(Intents[3], TopSpotsMessage)
  {
    TopSpotsButtonForecastPatternsFrom0Fail();
  }
  lemma TopSpotsButtonDotRunAt16()
    ensures DotRun(TopSpotsMessage, 16) == 25
  {
    var t := TopSpotsMessage;
    assert forall n :: 16 <= n < 22 ==> !IsLineTerminator(t[n]);
    assert forall n :: 22 <= n < 28 ==> !IsLineTerminator(t[n]);
    assert forall n :: 28 <= n < 34 ==> !IsLineTerminator(t[n]);
    assert forall n :: 34 <= n < 40 ==> !IsLineTerminator(t[n]);
    assert forall n :: 40 <= n < 41 ==> !IsLineTerminator(t[n]);
    DotRunIs(t, 16, 25);
  }
  lemma TopSpotsButtonDotRunAt30()
    ensures DotRun(TopSpotsMessage, 30) == 11
  {
    var t := TopSpotsMessage;
    assert forall n :: 30 <= n < 36 ==> !IsLineTerminator(t[n]);
    assert forall n :: 36 <= n < 41 ==> !IsLineTerminator(t[n]);
    DotRunIs(t, 30, 11);
  }
  lemma TopSpotsButtonWordRunAt34()
    ensures WordRun(TopSpotsMessage, 34) == 6
  {
    var t := TopSpotsMessage;
    assert forall n :: 34 <= n < 40 ==> InWordClass(t[n]);
    WordRunIs(t, 34, 6);
  }
  lemma TopSpotsButtonTopSpotsPiece5At34()
    ensures MatchAt(TopSpotsPattern, 5, TopSpotsMessage, 34, [Some("spots")]) == Some((40, [Some("spots"), Some("Sydney")]))
  {
    TopSpotsButtonWordRunAt34();
    SliceIs(TopSpotsMessage, 34, "Sydney");
    assert [Some("spots")] + [Some(TopSpotsMessage[34..40])] == [Some("spots"), Some("Sydney")];
  }
  lemma TopSpotsButtonInAt31()
    ensures LitAt(TopSpotsMessage, 31, "in ")
  {
    LitAtFrom(TopSpotsMessage, 31, "in ");
  }
  lemma TopSpotsButtonTopSpotsPiece4At31()
    ensures MatchAt(TopSpotsPattern, 4, TopSpotsMessage, 31, [Some("spots")]) == Some((40, [Some("spots"), Some("Sydney")]))
  {
    TopSpotsButtonTopSpotsPiece5At34();
    TopSpotsButtonInAt31();
  }
  lemma TopSpotsButtonTopSpotsPiece4At30BacksOff7To1()
    ensures Backtrack(TopSpotsPattern, 4, TopSpotsMessage, 30, 7, 0, false, [Some("spots")]) == Backtrack(TopSpotsPattern, 4, TopSpotsMessage, 30, 1, 0, false, [Some("spots")])
  {
    var t := TopSpotsMessage;
    var p := TopSpotsPattern;
    forall n | 32 <= n < 38 ensures Blocked(p[4], t, n) { HeadMismatch(t, n, "in "); }
    BacktrackSkips(p, 4, t, 30, 7, 1, 0, false, [Some("spots")]);
  }
  lemma TopSpotsButtonTopSpotsPiece4At30BacksOff11To7()
    ensures Backtrack(TopSpotsPattern, 4, TopSpotsMessage, 30, 11, 0, false, [Some("spots")]) == Backtrack(TopSpotsPattern, 4, TopSpotsMessage, 30, 7, 0, false, [Some("spots")])
  {
    var t := TopSpotsMessage;
    var p := TopSpotsPattern;
    forall n | 38 <= n < 42 ensures Blocked(p[4], t, n) { HeadMismatch(t, n, "in "); }
    BacktrackSkips(p, 4, t, 30, 11, 7, 0, false, [Some("spots")]);
  }
  lemma TopSpotsButtonTopSpotsPiece3At30()
    ensures MatchAt(TopSpotsPattern, 3, TopSpotsMessage, 30, [Some("spots")]) == Some((40, [Some("spots"), Some("Sydney")]))
  {
    TopSpotsButtonDotRunAt30();
    TopSpotsButtonTopSpotsPiece4At31();
    TopSpotsButtonTopSpotsPiece4At30BacksOff7To1();
    TopSpotsButtonTopSpotsPiece4At30BacksOff11To7();
  }
  lemma TopSpotsButtonSpotsAt25()
    ensures LitAt(TopSpotsMessage, 25, "spots")
  {
    LitAtFrom(TopSpotsMessage, 25, "spots");
  }
  lemma TopSpotsButtonTopSpotsPiece2At25()
    ensures MatchAt(TopSpotsPattern, 2, TopSpotsMessage, 25, []) == Some((40, [Some("spots"), Some("Sydney")]))
  {
    TopSpotsButtonTopSpotsPiece3At25();
  }
  lemma TopSpotsButtonTopSpotsPiece3At25()
    ensures TryOptions(TopSpotsPattern, 3, TopSpotsMessage, 25, ["spots", "places"], 0, []) == Some((40, [Some("spots"), Some("Sydney")]))
  {
    SliceIs(TopSpotsMessage, 25, "spots");
    assert [] + [Some(TopSpotsMessage[25..30])] == [Some("spots")];
    TopSpotsButtonTopSpotsPiece3At30();
    TopSpotsButtonSpotsAt25();
  }
  lemma TopSpotsButtonNoSpotsAt26()
    ensures !LitAt(TopSpotsMessage, 26, "spots")
  {
    MismatchAt(TopSpotsMessage, 26, "spots", 0);
  }
  lemma TopSpotsButtonNoPlacesAt26()
    ensures !LitAt(TopSpotsMessage, 26, "places")
  {
    MismatchAt(TopSpotsMessage, 26, "places", 1);
  }
  lemma TopSpotsButtonNoSpotsAt29()
    ensures !LitAt(TopSpotsMessage, 29, "spots")
  {
    MismatchAt(TopSpotsMessage, 29, "spots", 1);
  }
  lemma TopSpotsButtonNoPlacesAt29()
    ensures !LitAt(TopSpotsMessage, 29, "places")
  {
    MismatchAt(TopSpotsMessage, 29, "places", 0);
  }
  lemma TopSpotsButtonTopSpotsPiece2At16BacksOff15To9()
    ensures Backtrack(TopSpotsPattern, 2, TopSpotsMessage, 16, 15, 0, false, []) == Backtrack(TopSpotsPattern, 2, TopSpotsMessage, 16, 9, 0, false, [])
  {
    var t := TopSpotsMessage;
    var p := TopSpotsPattern;
    forall n | 26 <= n < 32 ensures Blocked(p[2], t, n) {
      if n == 26 { TopSpotsButtonNoSpotsAt26(); TopSpotsButtonNoPlacesAt26(); } else if n == 29 { TopSpotsButtonNoSpotsAt29(); TopSpotsButtonNoPlacesAt29(); } else { HeadMismatch(t, n, "spots"); HeadMismatch(t, n, "places"); }
    }
    BacktrackSkips(p, 2, t, 16, 15, 9, 0, false, []);
  }
  lemma TopSpotsButtonNoSpotsAt34()
    ensures !LitAt(TopSpotsMessage, 34, "spots")
  {
    MismatchAt(TopSpotsMessage, 34, "spots", 1);
  }
  lemma TopSpotsButtonNoPlacesAt34()
    ensures !LitAt(TopSpotsMessage, 34, "places")
  {
    MismatchAt(TopSpotsMessage, 34, "places", 0);
  }
  lemma TopSpotsButtonTopSpotsPiece2At16BacksOff21To15()
    ensures Backtrack(TopSpotsPattern, 2, TopSpotsMessage, 16, 21, 0, false, []) == Backtrack(TopSpotsPattern, 2, TopSpotsMessage, 16, 15, 0, false, [])
  {
    var t := TopSpotsMessage;
    var p := TopSpotsPattern;
    forall n | 32 <= n < 38 ensures Blocked(p[2], t, n) {
      if n == 34 { TopSpotsButtonNoSpotsAt34(); TopSpotsButtonNoPlacesAt34(); } else { HeadMismatch(t, n, "spots"); HeadMismatch(t, n, "places"); }
    }
    BacktrackSkips(p, 2, t, 16, 21, 15, 0, false, []);
  }
  lemma TopSpotsButtonTopSpotsPiece2At16BacksOff25To21()
    ensures Backtrack(TopSpotsPattern, 2, TopSpotsMessage, 16, 25, 0, false, []) == Backtrack(TopSpotsPattern, 2, TopSpotsMessage, 16, 21, 0, false, [])
  {
    var t := TopSpotsMessage;
    var p := TopSpotsPattern;
    forall n | 38 <= n < 42 ensures Blocked(p[2], t, n) { HeadMismatch(t, n, "spots"); HeadMismatch(t, n, "places"); }
    BacktrackSkips(p, 2, t, 16, 25, 21, 0, false, []);
  }
  lemma TopSpotsButtonTopSpotsPiece1At16()
    ensures MatchAt(TopSpotsPattern, 1, TopSpotsMessage, 16, []) == Some((40, [Some("spots"), Some("Sydney")]))
  {
    TopSpotsButtonDotRunAt16();
    TopSpotsButtonTopSpotsPiece2At16BacksOff15To9();
    TopSpotsButtonTopSpotsPiece2At16BacksOff21To15();
    TopSpotsButtonTopSpotsPiece2At16BacksOff25To21();
    TopSpotsButtonTopSpotsPiece2At16();
  }
  lemma TopSpotsButtonTopSpotsPiece2At16()
    ensures Backtrack(TopSpotsPattern, 2, TopSpotsMessage, 16, 9, 0, false, []) == Some((40, [Some("spots"), Some("Sydney")]))
  {
    TopSpotsButtonTopSpotsPiece2At25();
  }
  lemma TopSpotsButtonTopAt13()
    ensures LitAt(TopSpotsMessage, 13, "top")
  {
    LitAtFrom(TopSpotsMessage, 13, "top");
  }
  lemma TopSpotsButtonTopSpotsPiece0At13()
    ensures MatchAt(TopSpotsPattern, 0, TopSpotsMessage, 13, []) == Some((40, [Some("spots"), Some("Sydney")]))
  {
    TopSpotsButtonTopSpotsPiece1At16();
    TopSpotsButtonTopAt13();
  }
  lemma TopSpotsButtonTopSpotsSearchSkips12To13()
    ensures SearchFrom(TopSpotsPattern, TopSpotsMessage, 12) == SearchFrom(TopSpotsPattern, TopSpotsMessage, 13)
  {
    var t := TopSpotsMessage;
    var p := TopSpotsPattern;
    forall n | 12 <= n < 13 ensures Blocked(p[0], t, n) { HeadMismatch(t, n, "top"); }
    SearchSkips(p, t, 12, 13);
  }
  lemma TopSpotsButtonNoTopAt9()
    ensures !LitAt(TopSpotsMessage, 9, "top")
  {
    MismatchAt(TopSpotsMessage, 9, "top", 1);
  }
  lemma TopSpotsButtonTopSpotsSearchSkips6To12()
    ensures SearchFrom(TopSpotsPattern, TopSpotsMessage, 6) == SearchFrom(TopSpotsPattern, TopSpotsMessage, 12)
  {
    var t := TopSpotsMessage;
    var p := TopSpotsPattern;
    forall n | 6 <= n < 12 ensures Blocked(p[0], t, n) {
      if n == 9 { TopSpotsButtonNoTopAt9(); } else { HeadMismatch(t, n, "top"); }
    }
    SearchSkips(p, t, 6, 12);
  }
  lemma TopSpotsButtonNoTopAt3()
    ensures !LitAt(TopSpotsMessage, 3, "top")
  {
    MismatchAt(TopSpotsMessage, 3, "top", 1);
  }
  lemma TopSpotsButtonTopSpotsSearchSkips0To6()
    ensures SearchFrom(TopSpotsPattern, TopSpotsMessage, 0) == SearchFrom(TopSpotsPattern, TopSpotsMessage, 6)
  {
    var t := TopSpotsMessage;
    var p := TopSpotsPattern;
    forall n | 0 <= n < 6 ensures Blocked(p[0], t, n) {
      if n == 3 { TopSpotsButtonNoTopAt3(); } else { HeadMismatch(t, n, "top"); }
    }
    SearchSkips(p, t, 0, 6);
  }
  lemma TopSpotsButtonTopSpotsMatches()
    ensures Exec(TopSpotsPattern, TopSpotsMessage).Some?
  {
    TopSpotsButtonTopSpotsPiece0At13();
    TopSpotsButtonTopSpotsSearchSkips12To13();
    TopSpotsButtonTopSpotsSearchSkips6To12();
    TopSpotsButtonTopSpotsSearchSkips0To6();
  }
  lemma TopSpotsButtonTravelPatternsFrom3Pick3()
    ensures FirstPattern(TravelRule.patterns, TopSpotsMessage, 3) == Some(3)
  {
    TopSpotsButtonTopSpotsMatches();
  }
  lemma TopSpotsButtonNoExchangeRate()
    ensures Exec(ExchangeRatePattern, TopSpotsMessage).None?
  {
    NoMatchWithoutChar(ExchangeRatePattern, TopSpotsMessage, 0, 1);
  }
  lemma TopSpotsButtonTravelPatternsFrom2Pick3()
    ensures FirstPattern(TravelRule.patterns, TopSpotsMessage, 2) == Some(3)
  {
    TopSpotsButtonNoExchangeRate();
    TopSpotsButtonTravelPatternsFrom3Pick3();
  }
  lemma TopSpotsButtonNoNeedVisa()
    ensures Exec(NeedVisaPattern, TopSpotsMessage).None?
  {
    NoMatchWithoutChar(NeedVisaPattern, TopSpotsMessage, 2, 0);
  }
  lemma TopSpotsButtonTravelPatternsFrom1Pick3()
    ensures FirstPattern(TravelRule.patterns, TopSpotsMessage, 1) == Some(3)
  {
    TopSpotsButtonNoNeedVisa();
    TopSpotsButtonTravelPatternsFrom2Pick3();
  }
  lemma TopSpotsButtonNoVisa()
    ensures Exec(VisaPattern, TopSpotsMessage).None?
  {
    NoMatchWithoutChar(VisaPattern, TopSpotsMessage, 0, 0);
  }
  lemma TopSpotsButtonTravelPatternsFrom0Pick3()
    ensures FirstPattern(TravelRule.patterns, TopSpotsMessage, 0) == Some(3)
  {
    TopSpotsButtonNoVisa();
    TopSpotsButtonTravelPatternsFrom1Pick3();
  }
  lemma TopSpotsButtonRule4PatternsFrom0Pick3()
    ensures FirstPattern(Intents[4].patterns, TopSpotsMessage, 0) == Some(3)
  {
    TopSpotsButtonTravelPatternsFrom0Pick3();
  }
  lemma TopSpotsButtonRulesFrom4Pick4()
    ensures FirstRule(Intents, TopSpotsMessage, 4) == Some(4)
  {
    TopSpotsButtonRule4PatternsFrom0Pick3();
  }
  lemma TopSpotsButtonRulesFrom3Pick4()
    ensures FirstRule(Intents, TopSpotsMessage, 3) == Some(4)
  {
    TopSpotsButtonRule3Misses();
    TopSpotsButtonRulesFrom4Pick4();
  }
  lemma TopSpotsButtonRulesFrom2Pick4()
    ensures FirstRule(Intents, TopSpotsMessage, 2) == Some(4)
  {
    TopSpotsButtonRule2Misses();
    TopSpotsButtonRulesFrom3Pick4();
  }
  lemma TopSpotsButtonRulesFrom1Pick4()
    ensures FirstRule(Intents, TopSpotsMessage, 1) == Some(4)
  {
    TopSpotsButtonRule1Misses();
    TopSpotsButtonRulesFrom2Pick4();
  }
  lemma TopSpotsButtonRulesFrom0Pick4()
    ensures FirstRule(Intents, TopSpotsMessage, 0) == Some(4)
  {
    TopSpotsButtonRule0Misses();
    TopSpotsButtonRulesFrom1Pick4();
  }
  lemma TopSpotsButtonDispatch(svc: Services)
    ensures Dispatch(Intents, TopSpotsMessage, svc) == Outcome(TravelReply, [])
  {
    TopSpotsButtonRulesFrom0Pick4();
    StaticRuleAnswers(Intents, TopSpotsMessage, svc, 4);
  }
  /** TopSpotsMessage is answered by the travel rule, whose answer is fixed: the city is matched but not used. */
  lemma TopSpotsButton(svc: Services)
    ensures Handle(Text(TopSpotsMessage), svc, true) ==
      Handled(Replied(TravelReply), [SaveCall(ChatRecord(TopSpotsMessage, TravelReply))])
  {
    TopSpotsButtonDispatch(svc);
  }

  lemma RentCarButtonNoResetPassword()
    ensures Exec(ResetPasswordPattern, RentCarMessage).None?
  {
    NoMatchWithoutChar(ResetPasswordPattern, RentCarMessage, 0, 2);
  }
  lemma RentCarButtonAccountPatternsFrom1Fail()
    ensures FirstPattern(AccountRule.patterns, RentCarMessage, 1).None?
  {
    RentCarButtonNoResetPassword();
  }
  lemma RentCarButtonNoLogin()
    ensures Exec(LoginPattern, RentCarMessage).None?
  {
    NoMatchWithoutChar(LoginPattern, RentCarMessage, 0, 2);
  }
  lemma RentCarButtonAccountPatternsFrom0Fail()
    ensures FirstPattern(AccountRule.patterns, RentCarMessage, 0).None?
  {
    RentCarButtonNoLogin();
    RentCarButtonAccountPatternsFrom1Fail();
  }
  lemma RentCarButtonRule0Misses()
    ensures !RuleMatches(Intents[0], RentCarMessage)
  {
    RentCarButtonAccountPatternsFrom0Fail();
  }
  lemma RentCarButtonDotRunAt15()
    ensures DotRun(RentCarMessage, 15) == 13
  {
    var t := RentCarMessage;
    assert forall n :: 15 <= n < 21 ==> !IsLineTerminator(t[n]);
    assert forall n :: 21 <= n < 27 ==> !IsLineTerminator(t[n]);
    assert forall n :: 27 <= n < 28 ==> !IsLineTerminator(t[n]);
    DotRunIs(t, 15, 13);
  }
  lemma RentCarButtonCarAt16()
    ensures LitAt(RentCarMessage, 16, "car")
  {
    LitAtFrom(RentCarMessage, 16, "car");
  }
  lemma RentCarButtonRentalCarPiece2At16()
    ensures MatchAt(RentalCarPattern, 2, RentCarMessage, 16, []) == Some((19, []))
  {
    RentCarButtonCarAt16();
  }
  lemma RentCarButtonRentalCarPiece2At15BacksOff7To1()
    ensures Backtrack(RentalCarPattern, 2, RentCarMessage, 15, 7, 0, false, []) == Backtrack(RentalCarPattern, 2, RentCarMessage, 15, 1, 0, false, [])
  {
    var t := RentCarMessage;
    var p := RentalCarPattern;
    forall n | 17 <= n < 23 ensures Blocked(p[2], t, n) { HeadMismatch(t, n, "car"); }
    BacktrackSkips(p, 2, t, 15, 7, 1, 0, false, []);
  }
  lemma RentCarButtonRentalCarPiece2At15BacksOff13To7()
    ensures Backtrack(RentalCarPattern, 2, RentCarMessage, 15, 13, 0, false, []) == Backtrack(RentalCarPattern, 2, RentCarMessage, 15, 7, 0, false, [])
  {
    var t := RentCarMessage;
    var p := RentalCarPattern;
    forall n | 23 <= n < 29 ensures Blocked(p[2], t, n) { HeadMismatch(t, n, "car"); }
    BacktrackSkips(p, 2, t, 15, 13, 7, 0, false, []);
  }
  lemma RentCarButtonRentalCarPiece1At15()
    ensures MatchAt(RentalCarPattern, 1, RentCarMessage, 15, []) == Some((19, []))
  {
    RentCarButtonDotRunAt15();
    RentCarButtonRentalCarPiece2At16();
    RentCarButtonRentalCarPiece2At15BacksOff7To1();
    RentCarButtonRentalCarPiece2At15BacksOff13To7();
  }
  lemma RentCarButtonRentalAt9()
    ensures LitAt(RentCarMessage, 9, "rental")
  {
    LitAtFrom(RentCarMessage, 9, "rental");
  }
  lemma RentCarButtonRentalCarPiece0At9()
    ensures MatchAt(RentalCarPattern, 0, RentCarMessage, 9, []) == Some((19, []))
  {
    RentCarButtonRentalCarPiece1At15();
    RentCarButtonRentalAt9();
  }
  lemma RentCarButtonRentalCarSearchSkips6To9()
    ensures SearchFrom(RentalCarPattern, RentCarMessage, 6) == SearchFrom(RentalCarPattern, RentCarMessage, 9)
  {
    var t := RentCarMessage;
    var p := RentalCarPattern;
    forall n | 6 <= n < 9 ensures Blocked(p[0], t, n) { HeadMismatch(t, n, "rental"); }
    SearchSkips(p, t, 6, 9);
  }
  lemma RentCarButtonRentalCarSearchSkips0To6()
    ensures SearchFrom(RentalCarPattern, RentCarMessage, 0) == SearchFrom(RentalCarPattern, RentCarMessage, 6)
  {
    var t := RentCarMessage;
    var p := RentalCarPattern;
    forall n | 0 <= n < 6 ensures Blocked(p[0], t, n) { HeadMismatch(t, n, "rental"); }
    SearchSkips(p, t, 0, 6);
  }
  lemma RentCarButtonRentalCarMatches()
    ensures Exec(RentalCarPattern, RentCarMessage).Some?
  {
    RentCarButtonRentalCarPiece0At9();
    RentCarButtonRentalCarSearchSkips6To9();
    RentCarButtonRentalCarSearchSkips0To6();
  }
  lemma RentCarButtonBookingPatternsFrom2Pick2()
    ensures FirstPattern(BookingRule.patterns, RentCarMessage, 2) == Some(2)
  {
    RentCarButtonRentalCarMatches();
  }
  lemma RentCarButtonNoHotel()
    ensures Exec(HotelPattern, RentCarMessage).None?
  {
    NoMatchWithoutChar(HotelPattern, RentCarMessage, 0, 0);
  }
  lemma RentCarButtonBookingPatternsFrom1Pick2()
    ensures FirstPattern(BookingRule.patterns, RentCarMessage, 1) == Some(2)
  {
    RentCarButtonNoHotel();
    RentCarButtonBookingPatternsFrom2Pick2();
  }
  lemma RentCarButtonNoBookFlight()
    ensures Exec(BookFlightPattern, RentCarMessage).None?
  {
    NoMatchWithoutChar(BookFlightPattern, RentCarMessage, 0, 0);
  }
  lemma RentCarButtonBookingPatternsFrom0Pick2()
    ensures FirstPattern(BookingRule.patterns, RentCarMessage, 0) == Some(2)
  {
    RentCarButtonNoBookFlight();
    RentCarButtonBookingPatternsFrom1Pick2();
  }
  lemma RentCarButtonRule1PatternsFrom0Pick2()
    ensures FirstPattern(Intents[1].patterns, RentCarMessage, 0) == Some(2)
  {
    RentCarButtonBookingPatternsFrom0Pick2();
  }
  lemma RentCarButtonRulesFrom1Pick1()
    ensures FirstRule(Intents, RentCarMessage, 1) == Some(1)
  {
    RentCarButtonRule1PatternsFrom0Pick2();
  }
  lemma RentCarButtonRulesFrom0Pick1()
    ensures FirstRule(Intents, RentCarMessage, 0) == Some(1)
  {
    RentCarButtonRule0Misses();
    RentCarButtonRulesFrom1Pick1();
  }
  lemma RentCarButtonDispatch(svc: Services)
    ensures Dispatch(Intents, RentCarMessage, svc) == Outcome(BookingReply, [])
  {
    RentCarButtonRulesFrom0Pick1();
    StaticRuleAnswers(Intents, RentCarMessage, svc, 1);
  }
  /** RentCarMessage is answered by the booking rule. */
  lemma RentCarButton(svc: Services)
    ensures Handle(Text(RentCarMessage), svc, true) ==
      Handled(Replied(BookingReply), [SaveCall(ChatRecord(RentCarMessage, BookingReply))])
  {
    RentCarButtonDispatch(svc);
  }

  lemma AppCrashButtonNoResetPassword()
    ensures Exec(ResetPasswordPattern, AppCrashMessage).None?
  {
    NoMatchWithoutChar(ResetPasswordPattern, AppCrashMessage, 2, 4);
  }
  lemma AppCrashButtonAccountPatternsFrom1Fail()
    ensures FirstPattern(AccountRule.patterns, AppCrashMessage, 1).None?
  {
    AppCrashButtonNoResetPassword();
  }
  lemma AppCrashButtonNoLogin()
    ensures Exec(LoginPattern, AppCrashMessage).None?
  {
    NoMatchWithoutChar(LoginPattern, AppCrashMessage, 0, 0);
  }
  lemma AppCrashButtonAccountPatternsFrom0Fail()
    ensures FirstPattern(AccountRule.patterns, AppCrashMessage, 0).None?
  {
    AppCrashButtonNoLogin();
    AppCrashButtonAccountPatternsFrom1Fail();
  }
  lemma AppCrashButtonRule0Misses()
    ensures !RuleMatches(Intents[0], AppCrashMessage)
  {
    AppCrashButtonAccountPatternsFrom0Fail();
  }
  lemma AppCrashButtonNoRentCar()
    ensures Exec(RentCarPattern, AppCrashMessage).None?
  {
    assert RentCarPattern[0].text[0] == 'r' && RentCarPattern[0].text[1] == 'e';
    NoMatchWithoutPair(RentCarPattern, AppCrashMessage, 0, 0);
  }
  lemma AppCrashButtonBookingPatternsFrom3Fail()
    ensures FirstPattern(BookingRule.patterns, AppCrashMessage, 3).None?
  {
    AppCrashButtonNoRentCar();
  }
  lemma AppCrashButtonNoRentalCar()
    ensures Exec(RentalCarPattern, AppCrashMessage).None?
  {
    NoMatchWithoutChar(RentalCarPattern, AppCrashMessage, 0, 5);
  }
  lemma AppCrashButtonBookingPatternsFrom2Fail()
    ensures FirstPattern(BookingRule.patterns, AppCrashMessage, 2).None?
  {
    AppCrashButtonNoRentalCar();
    AppCrashButtonBookingPatternsFrom3Fail();
  }
  lemma AppCrashButtonNoHotel()
    ensures Exec(HotelPattern, AppCrashMessage).None?
  {
    NoMatchWithoutChar(HotelPattern, AppCrashMessage, 0, 4);
  }
  lemma AppCrashButtonBookingPatternsFrom1Fail()
    ensures FirstPattern(BookingRule.patterns, AppCrashMessage, 1).None?
  {
    AppCrashButtonNoHotel();
    AppCrashButtonBookingPatternsFrom2Fail();
  }
  lemma AppCrashButtonNoBookFlight()
    ensures Exec(BookFlightPattern, AppCrashMessage).None?
  {
    NoMatchWithoutChar(BookFlightPattern, AppCrashMessage, 0, 0);
  }
  lemma AppCrashButtonBookingPatternsFrom0Fail()
    ensures FirstPattern(BookingRule.patterns, AppCrashMessage, 0).None?
  {
    AppCrashButtonNoBookFlight();
    AppCrashButtonBookingPatternsFrom1Fail();
  }
  lemma AppCrashButtonRule1Misses()
    ensures !RuleMatches(Intents[1], AppCrashMessage)
  {
    AppCrashButtonBookingPatternsFrom0Fail();
  }
  lemma AppCrashButtonNoHowWeather()
    ensures Exec(HowWeatherPattern, AppCrashMessage).None?
  {
    NoMatchWithoutChar(HowWeatherPattern, AppCrashMessage, 0, 2);
  }
  lemma AppCrashButtonWeatherPatternsFrom2Fail()
    ensures FirstPattern(WeatherRule.patterns, AppCrashMessage, 2).None?
  {
    AppCrashButtonNoHowWeather();
  }
  lemma AppCrashButtonNoWhatWeather()
    ensures Exec(WhatWeatherPattern, AppCrashMessage).None?
  {
    NoMatchWithoutChar(WhatWeatherPattern, AppCrashMessage, 0, 0);
  }
  lemma AppCrashButtonWeatherPatternsFrom1Fail()
    ensures FirstPattern(WeatherRule.patterns, AppCrashMessage, 1).None?
  {
    AppCrashButtonNoWhatWeather();
    AppCrashButtonWeatherPatternsFrom2Fail();
  }
  lemma AppCrashButtonNoWeatherIn()
    ensures Exec(WeatherInPattern, AppCrashMessage).None?
  {
    NoMatchWithoutChar(WeatherInPattern, AppCrashMessage, 0, 0);
  }
  lemma AppCrashButtonWeatherPatternsFrom0Fail()
    ensures FirstPattern(WeatherRule.patterns, AppCrashMessage, 0).None?
  {
    AppCrashButtonNoWeatherIn();
    AppCrashButtonWeatherPatternsFrom1Fail();
  }
  lemma AppCrashButtonRule2Misses()
    ensures !RuleMatches(Intents[2], AppCrashMessage)
  {
    AppCrashButtonWeatherPatternsFrom0Fail();
  }
  lemma AppCrashButtonNoRainTomorrow()
    ensures Exec(RainTomorrowPattern, AppCrashMessage).None?
  {
    NoMatchWithoutChar(RainTomorrowPattern, AppCrashMessage, 2, 7);
  }
  lemma AppCrashButtonForecastPatternsFrom2Fail()
    ensures FirstPattern(ForecastRule.patterns, AppCrashMessage, 2).None?
  {
    AppCrashButtonNoRainTomorrow();
  }
  lemma AppCrashButtonNoForecastIn()
    ensures Exec(ForecastInPattern, AppCrashMessage).None?
  {
    NoMatchWithoutChar(ForecastInPattern, AppCrashMessage, 0, 0);
  }
  lemma AppCrashButtonForecastPatternsFrom1Fail()
    ensures FirstPattern(ForecastRule.patterns, AppCrashMessage, 1).None?
  {
    AppCrashButtonNoForecastIn();
    AppCrashButtonForecastPatternsFrom2Fail();
  }
  lemma AppCrashButtonNoWillItRain()
    ensures Exec(WillItRainPattern, AppCrashMessage).None?
  {
    NoMatchWithoutChar(WillItRainPattern, AppCrashMessage, 0, 0);
  }
  lemma AppCrashButtonForecastPatternsFrom0Fail()
    ensures FirstPattern(ForecastRule.patterns, AppCrashMessage, 0).None?
  {
    AppCrashButtonNoWillItRain();
    AppCrashButtonForecastPatternsFrom1Fail();
  }
  lemma AppCrashButtonRule3Misses()
    ensures !RuleMatches(Intents[3], AppCrashMessage)
  {
    AppCrashButtonForecastPatternsFrom0Fail();
  }
  lemma AppCrashButtonNoTouristSpots()
    ensures Exec(TouristSpotsPattern, AppCrashMessage).None?
  {
    NoMatchWithoutChar(TouristSpotsPattern, AppCrashMessage, 0, 0);
  }
  lemma AppCrashButtonTravelPatternsFrom4Fail()
    ensures FirstPattern(TravelRule.patterns, AppCrashMessage, 4).None?
  {
    AppCrashButtonNoTouristSpots();
  }
  lemma AppCrashButtonNoTopSpots()
    ensures Exec(TopSpotsPattern, AppCrashMessage).None?
  {
    assert TopSpotsPattern[0].text[0] == 't' && TopSpotsPattern[0].text[1] == 'o';
    NoMatchWithoutPair(TopSpotsPattern, AppCrashMessage, 0, 0);
  }
  lemma AppCrashButtonTravelPatternsFrom3Fail()
    ensures FirstPattern(TravelRule.patterns, AppCrashMessage, 3).None?
  {
    AppCrashButtonNoTopSpots();
    AppCrashButtonTravelPatternsFrom4Fail();
  }
  lemma AppCrashButtonNoExchangeRate()
    ensures Exec(ExchangeRatePattern, AppCrashMessage).None?
  {
    NoMatchWithoutChar(ExchangeRatePattern, AppCrashMessage, 0, 1);
  }
  lemma AppCrashButtonTravelPatternsFrom2Fail()
    ensures FirstPattern(TravelRule.patterns, AppCrashMessage, 2).None?
  {
    AppCrashButtonNoExchangeRate();
    AppCrashButtonTravelPatternsFrom3Fail();
  }
  lemma AppCrashButtonNoNeedVisa()
    ensures Exec(NeedVisaPattern, AppCrashMessage).None?
  {
    NoMatchWithoutChar(NeedVisaPattern, AppCrashMessage, 0, 0);
  }
  lemma AppCrashButtonTravelPatternsFrom1Fail()
    ensures FirstPattern(TravelRule.patterns, AppCrashMessage, 1).None?
  {
    AppCrashButtonNoNeedVisa();
    AppCrashButtonTravelPatternsFrom2Fail();
  }
  lemma AppCrashButtonNoVisa()
    ensures Exec(VisaPattern, AppCrashMessage).None?
  {
    NoMatchWithoutChar(VisaPattern, AppCrashMessage, 0, 0);
  }
  lemma AppCrashButtonTravelPatternsFrom0Fail()
    ensures FirstPattern(TravelRule.patterns, AppCrashMessage, 0).None?
  {
    AppCrashButtonNoVisa();
    AppCrashButtonTravelPatternsFrom1Fail();
  }
  lemma AppCrashButtonRule4Misses()
    ensures !RuleMatches(Intents[4], AppCrashMessage)
  {
    AppCrashButtonTravelPatternsFrom0Fail();
  }
  lemma AppCrashButtonDotRunAt7()
    ensures DotRun(AppCrashMessage, 7) == 28
  {
    var t := AppCrashMessage;
    assert forall n :: 7 <= n < 13 ==> !IsLineTerminator(t[n]);
    assert forall n :: 13 <= n < 19 ==> !IsLineTerminator(t[n]);
    assert forall n :: 19 <= n < 25 ==> !IsLineTerminator(t[n]);
    assert forall n :: 25 <= n < 31 ==> !IsLineTerminator(t[n]);
    assert forall n :: 31 <= n < 35 ==> !IsLineTerminator(t[n]);
    DotRunIs(t, 7, 28);
  }
  lemma AppCrashButtonCrashAt14()
    ensures LitAt(AppCrashMessage, 14, "crash")
  {
    LitAtFrom(AppCrashMessage, 14, "crash");
  }
  lemma AppCrashButtonAppCrashPiece2At14()
    ensures MatchAt(AppCrashPattern, 2, AppCrashMessage, 14, []) == Some((19, [Some("crash")]))
  {
    AppCrashButtonCrashAt14();
    SliceIs(AppCrashMessage, 14, "crash");
    assert [] + [Some(AppCrashMessage[14..19])] == [Some("crash")];
  }
  lemma AppCrashButtonNoCrashAt20()
    ensures !LitAt(AppCrashMessage, 20, "crash")
  {
    MismatchAt(AppCrashMessage, 20, "crash", 0);
  }
  lemma AppCrashButtonNoNotWorkingAt20()
    ensures !LitAt(AppCrashMessage, 20, "not working")
  {
    MismatchAt(AppCrashMessage, 20, "not working", 1);
  }
  lemma AppCrashButtonAppCrashPiece2At7BacksOff13To7()
    ensures Backtrack(AppCrashPattern, 2, AppCrashMessage, 7, 13, 0, false, []) == Backtrack(AppCrashPattern, 2, AppCrashMessage, 7, 7, 0, false, [])
  {
    var t := AppCrashMessage;
    var p := AppCrashPattern;
    forall n | 15 <= n < 21 ensures Blocked(p[2], t, n) {
      if n == 20 { AppCrashButtonNoCrashAt20(); AppCrashButtonNoNotWorkingAt20(); } else { HeadMismatch(t, n, "crash"); HeadMismatch(t, n, "not working"); }
    }
    BacktrackSkips(p, 2, t, 7, 13, 7, 0, false, []);
  }
  lemma AppCrashButtonNoCrashAt24()
    ensures !LitAt(AppCrashMessage, 24, "crash")
  {
    MismatchAt(AppCrashMessage, 24, "crash", 0);
  }
  lemma AppCrashButtonNoNotWorkingAt24()
    ensures !LitAt(AppCrashMessage, 24, "not working")
  {
    MismatchAt(AppCrashMessage, 24, "not working", 1);
  }
  lemma AppCrashButtonAppCrashPiece2At7BacksOff19To13()
    ensures Backtrack(AppCrashPattern, 2, AppCrashMessage, 7, 19, 0, false, []) == Backtrack(AppCrashPattern, 2, AppCrashMessage, 7, 13, 0, false, [])
  {
    var t := AppCrashMessage;
    var p := AppCrashPattern;
    forall n | 21 <= n < 27 ensures Blocked(p[2], t, n) {
      if n == 24 { AppCrashButtonNoCrashAt24(); AppCrashButtonNoNotWorkingAt24(); } else { HeadMismatch(t, n, "crash"); HeadMismatch(t, n, "not working"); }
    }
    BacktrackSkips(p, 2, t, 7, 19, 13, 0, false, []);
  }
  lemma AppCrashButtonNoCrashAt32()
    ensures !LitAt(AppCrashMessage, 32, "crash")
  {
    MismatchAt(AppCrashMessage, 32, "crash", 0);
  }
  lemma AppCrashButtonNoNotWorkingAt32()
    ensures !LitAt(AppCrashMessage, 32, "not working")
  {
    MismatchAt(AppCrashMessage, 32, "not working", 1);
  }
  lemma AppCrashButtonAppCrashPiece2At7BacksOff25To19()
    ensures Backtrack(AppCrashPattern, 2, AppCrashMessage, 7, 25, 0, false, []) == Backtrack(AppCrashPattern, 2, AppCrashMessage, 7, 19, 0, false, [])
  {
    var t := AppCrashMessage;
    var p := AppCrashPattern;
    forall n | 27 <= n < 33 ensures Blocked(p[2], t, n) {
      if n == 32 { AppCrashButtonNoCrashAt32(); AppCrashButtonNoNotWorkingAt32(); } else { HeadMismatch(t, n, "crash"); HeadMismatch(t, n, "not working"); }
    }
    BacktrackSkips(p, 2, t, 7, 25, 19, 0, false, []);
  }
  lemma AppCrashButtonAppCrashPiece2At7BacksOff28To25()
    ensures Backtrack(AppCrashPattern, 2, AppCrashMessage, 7, 28, 0, false, []) == Backtrack(AppCrashPattern, 2, AppCrashMessage, 7, 25, 0, false, [])
  {
    var t := AppCrashMessage;
    var p := AppCrashPattern;
    forall n | 33 <= n < 36 ensures Blocked(p[2], t, n) { HeadMismatch(t, n, "crash"); HeadMismatch(t, n, "not working"); }
    BacktrackSkips(p, 2, t, 7, 28, 25, 0, false, []);
  }
  lemma AppCrashButtonAppCrashPiece1At7()
    ensures MatchAt(AppCrashPattern, 1, AppCrashMessage, 7, []) == Some((19, [Some("crash")]))
  {
    AppCrashButtonDotRunAt7();
    AppCrashButtonAppCrashPiece2At14();
    AppCrashButtonAppCrashPiece2At7BacksOff13To7();
    AppCrashButtonAppCrashPiece2At7BacksOff19To13();
    AppCrashButtonAppCrashPiece2At7BacksOff25To19();
    AppCrashButtonAppCrashPiece2At7BacksOff28To25();
  }
  lemma AppCrashButtonAppAt4()
    ensures LitAt(AppCrashMessage, 4, "app")
  {
    LitAtFrom(AppCrashMessage, 4, "app");
  }
  lemma AppCrashButtonAppCrashPiece0At4()
    ensures MatchAt(AppCrashPattern, 0, AppCrashMessage, 4, []) == Some((19, [Some("crash")]))
  {
    AppCrashButtonAppCrashPiece1At7();
    AppCrashButtonAppAt4();
  }
  lemma AppCrashButtonAppCrashSearchSkips0To4()
    ensures SearchFrom(AppCrashPattern, AppCrashMessage, 0) == SearchFrom(AppCrashPattern, AppCrashMessage, 4)
  {
    var t := AppCrashMessage;
    var p := AppCrashPattern;
    forall n | 0 <= n < 4 ensures Blocked(p[0], t, n) { HeadMismatch(t, n, "app"); }
    SearchSkips(p, t, 0, 4);
  }
  lemma AppCrashButtonAppCrashMatches()
    ensures Exec(AppCrashPattern, AppCrashMessage).Some?
  {
    AppCrashButtonAppCrashPiece0At4();
    AppCrashButtonAppCrashSearchSkips0To4();
  }
  lemma AppCrashButtonSupportPatternsFrom0Pick0()
    ensures FirstPattern(SupportRule.patterns, AppCrashMessage, 0) == Some(0)
  {
    AppCrashButtonAppCrashMatches();
  }
  lemma AppCrashButtonRule5PatternsFrom0Pick0()
    ensures FirstPattern(Intents[5].patterns, AppCrashMessage, 0) == Some(0)
  {
    AppCrashButtonSupportPatternsFrom0Pick0();
  }
  lemma AppCrashButtonRulesFrom5Pick5()
    ensures FirstRule(Intents, AppCrashMessage, 5) == Some(5)
  {
    AppCrashButtonRule5PatternsFrom0Pick0();
  }
  lemma AppCrashButtonRulesFrom4Pick5()
    ensures FirstRule(Intents, AppCrashMessage, 4) == Some(5)
  {
    AppCrashButtonRule4Misses();
    AppCrashButtonRulesFrom5Pick5();
  }
  lemma AppCrashButtonRulesFrom3Pick5()
    ensures FirstRule(Intents, AppCrashMessage, 3) == Some(5)
  {
    AppCrashButtonRule3Misses();
    AppCrashButtonRulesFrom4Pick5();
  }
  lemma AppCrashButtonRulesFrom2Pick5()
    ensures FirstRule(Intents, AppCrashMessage, 2) == Some(5)
  {
    AppCrashButtonRule2Misses();
    AppCrashButtonRulesFrom3Pick5();
  }
  lemma AppCrashButtonRulesFrom1Pick5()
    ensures FirstRule(Intents, AppCrashMessage, 1) == Some(5)
  {
    AppCrashButtonRule1Misses();
    AppCrashButtonRulesFrom2Pick5();
  }
  lemma AppCrashButtonRulesFrom0Pick5()
    ensures FirstRule(Intents, AppCrashMessage, 0) == Some(5)
  {
    AppCrashButtonRule0Misses();
    AppCrashButtonRulesFrom1Pick5();
  }
  lemma AppCrashButtonDispatch(svc: Services)
    ensures Dispatch(Intents, AppCrashMessage, svc) == Outcome(SupportReply, [])
  {
    AppCrashButtonRulesFrom0Pick5();
    StaticRuleAnswers(Intents, AppCrashMessage, svc, 5);
  }
  /** AppCrashMessage is answered by the support rule. */
  lemma AppCrashButton(svc: Services)
    ensures Handle(Text(AppCrashMessage), svc, true) ==
      Handled(Replied(SupportReply), [SaveCall(ChatRecord(AppCrashMessage, SupportReply))])
  {
    AppCrashButtonDispatch(svc);
  }

  lemma DarkModeButtonNoResetPassword()
    ensures Exec(ResetPasswordPattern, DarkModeMessage).None?
  {
    NoMatchWithoutChar(ResetPasswordPattern, DarkModeMessage, 0, 2);
  }
  lemma DarkModeButtonAccountPatternsFrom1Fail()
    ensures FirstPattern(AccountRule.patterns, DarkModeMessage, 1).None?
  {
    DarkModeButtonNoResetPassword();
  }
  lemma DarkModeButtonNoLogin()
    ensures Exec(LoginPattern, DarkModeMessage).None?
  {
    NoMatchWithoutChar(LoginPattern, DarkModeMessage, 0, 0);
  }
  lemma DarkModeButtonAccountPatternsFrom0Fail()
    ensures FirstPattern(AccountRule.patterns, DarkModeMessage, 0).None?
  {
    DarkModeButtonNoLogin();
    DarkModeButtonAccountPatternsFrom1Fail();
  }
  lemma DarkModeButtonRule0Misses()
    ensures !RuleMatches(Intents[0], DarkModeMessage)
  {
    DarkModeButtonAccountPatternsFrom0Fail();
  }
  lemma DarkModeButtonNoRentCar()
    ensures Exec(RentCarPattern, DarkModeMessage).None?
  {
    assert RentCarPattern[0].text[1] == 'e' && RentCarPattern[0].text[2] == 'n';
    NoMatchWithoutPair(RentCarPattern, DarkModeMessage, 0, 1);
  }
  lemma DarkModeButtonBookingPatternsFrom3Fail()
    ensures FirstPattern(BookingRule.patterns, DarkModeMessage, 3).None?
  {
    DarkModeButtonNoRentCar();
  }
  lemma DarkModeButtonNoRentalCar()
    ensures Exec(RentalCarPattern, DarkModeMessage).None?
  {
    NoMatchWithoutChar(RentalCarPattern, DarkModeMessage, 0, 5);
  }
  lemma DarkModeButtonBookingPatternsFrom2Fail()
    ensures FirstPattern(BookingRule.patterns, DarkModeMessage, 2).None?
  {
    DarkModeButtonNoRentalCar();
    DarkModeButtonBookingPatternsFrom3Fail();
  }
  lemma DarkModeButtonNoHotel()
    ensures Exec(HotelPattern, DarkModeMessage).None?
  {
    NoMatchWithoutChar(HotelPattern, DarkModeMessage, 0, 0);
  }
  lemma DarkModeButtonBookingPatternsFrom1Fail()
    ensures FirstPattern(BookingRule.patterns, DarkModeMessage, 1).None?
  {
    DarkModeButtonNoHotel();
    DarkModeButtonBookingPatternsFrom2Fail();
  }
  lemma DarkModeButtonNoBookFlight()
    ensures Exec(BookFlightPattern, DarkModeMessage).None?
  {
    NoMatchWithoutChar(BookFlightPattern, DarkModeMessage, 0, 0);
  }
  lemma DarkModeButtonBookingPatternsFrom0Fail()
    ensures FirstPattern(BookingRule.patterns, DarkModeMessage, 0).None?
  {
    DarkModeButtonNoBookFlight();
    DarkModeButtonBookingPatternsFrom1Fail();
  }
  lemma DarkModeButtonRule1Misses()
    ensures !RuleMatches(Intents[1], DarkModeMessage)
  {
    DarkModeButtonBookingPatternsFrom0Fail();
  }
  lemma DarkModeButtonNoHowWeather()
    ensures Exec(HowWeatherPattern, DarkModeMessage).None?
  {
    NoMatchWithoutChar(HowWeatherPattern, DarkModeMessage, 0, 0);
  }
  lemma DarkModeButtonWeatherPatternsFrom2Fail()
    ensures FirstPattern(WeatherRule.patterns, DarkModeMessage, 2).None?
  {
    DarkModeButtonNoHowWeather();
  }
  lemma DarkModeButtonNoWhatWeather()
    ensures Exec(WhatWeatherPattern, DarkModeMessage).None?
  {
    NoMatchWithoutChar(WhatWeatherPattern, DarkModeMessage, 0, 0);
  }
  lemma DarkModeButtonWeatherPatternsFrom1Fail()
    ensures FirstPattern(WeatherRule.patterns, DarkModeMessage, 1).None?
  {
    DarkModeButtonNoWhatWeather();
    DarkModeButtonWeatherPatternsFrom2Fail();
  }
  lemma DarkModeButtonNoWeatherIn()
    ensures Exec(WeatherInPattern, DarkModeMessage).None?
  {
    NoMatchWithoutChar(WeatherInPattern, DarkModeMessage, 0, 0);
  }
  lemma DarkModeButtonWeatherPatternsFrom0Fail()
    ensures FirstPattern(WeatherRule.patterns, DarkModeMessage, 0).None?
  {
    DarkModeButtonNoWeatherIn();
    DarkModeButtonWeatherPatternsFrom1Fail();
  }
  lemma DarkModeButtonRule2Misses()
    ensures !RuleMatches(Intents[2], DarkModeMessage)
  {
    DarkModeButtonWeatherPatternsFrom0Fail();
  }
  lemma DarkModeButtonNoRainTomorrow()
    ensures Exec(RainTomorrowPattern, DarkModeMessage).None?
  {
    NoMatchWithoutChar(RainTomorrowPattern, DarkModeMessage, 0, 2);
  }
  lemma DarkModeButtonForecastPatternsFrom2Fail()
    ensures FirstPattern(ForecastRule.patterns, DarkModeMessage, 2).None?
  {
    DarkModeButtonNoRainTomorrow();
  }
  lemma DarkModeButtonNoForecastIn()
    ensures Exec(ForecastInPattern, DarkModeMessage).None?
  {
    NoMatchWithoutChar(ForecastInPattern, DarkModeMessage, 0, 6);
  }
  lemma DarkModeButtonForecastPatternsFrom1Fail()
    ensures FirstPattern(ForecastRule.patterns, DarkModeMessage, 1).None?
  {
    DarkModeButtonNoForecastIn();
    DarkModeButtonForecastPatternsFrom2Fail();
  }
  lemma DarkModeButtonNoWillItRain()
    ensures Exec(WillItRainPattern, DarkModeMessage).None?
  {
    NoMatchWithoutChar(WillItRainPattern, DarkModeMessage, 0, 0);
  }
  lemma DarkModeButtonForecastPatternsFrom0Fail()
    ensures FirstPattern(ForecastRule.patterns, DarkModeMessage, 0).None?
  {
    DarkModeButtonNoWillItRain();
    DarkModeButtonForecastPatternsFrom1Fail();
  }
  lemma DarkModeButtonRule3Misses()
    ensures !RuleMatches(Intents[3], DarkModeMessage)
  {
    DarkModeButtonForecastPatternsFrom0Fail();
  }
  lemma DarkModeButtonNoTouristSpots()
    ensures Exec(TouristSpotsPattern, DarkModeMessage).None?
  {
    NoMatchWithoutChar(TouristSpotsPattern, DarkModeMessage, 0, 0);
  }
  lemma DarkModeButtonTravelPatternsFrom4Fail()
    ensures FirstPattern(TravelRule.patterns, DarkModeMessage, 4).None?
  {
    DarkModeButtonNoTouristSpots();
  }
  lemma DarkModeButtonNoTopSpots()
    ensures Exec(TopSpotsPattern, DarkModeMessage).None?
  {
    NoMatchWithoutChar(TopSpotsPattern, DarkModeMessage, 0, 2);
  }
  lemma DarkModeButtonTravelPatternsFrom3Fail()
    ensures FirstPattern(TravelRule.patterns, DarkModeMessage, 3).None?
  {
    DarkModeButtonNoTopSpots();
    DarkModeButtonTravelPatternsFrom4Fail();
  }
  lemma DarkModeButtonNoExchangeRate()
    ensures Exec(ExchangeRatePattern, DarkModeMessage).None?
  {
    NoMatchWithoutChar(ExchangeRatePattern, DarkModeMessage, 0, 1);
  }
  lemma DarkModeButtonTravelPatternsFrom2Fail()
    ensures FirstPattern(TravelRule.patterns, DarkModeMessage, 2).None?
  {
    DarkModeButtonNoExchangeRate();
    DarkModeButtonTravelPatternsFrom3Fail();
  }
  lemma DarkModeButtonNoNeedVisa()
    ensures Exec(NeedVisaPattern, DarkModeMessage).None?
  {
    NoMatchWithoutChar(NeedVisaPattern, DarkModeMessage, 0, 3);
  }
  lemma DarkModeButtonTravelPatternsFrom1Fail()
    ensures FirstPattern(TravelRule.patterns, DarkModeMessage, 1).None?
  {
    DarkModeButtonNoNeedVisa();
    DarkModeButtonTravelPatternsFrom2Fail();
  }
  lemma DarkModeButtonNoVisa()
    ensures Exec(VisaPattern, DarkModeMessage).None?
  {
    NoMatchWithoutChar(VisaPattern, DarkModeMessage, 0, 0);
  }
  lemma DarkModeButtonTravelPatternsFrom0Fail()
    ensures FirstPattern(TravelRule.patterns, DarkModeMessage, 0).None?
  {
    DarkModeButtonNoVisa();
    DarkModeButtonTravelPatternsFrom1Fail();
  }
  lemma DarkModeButtonRule4Misses()
    ensures !RuleMatches(Intents[4], DarkModeMessage)
  {
    DarkModeButtonTravelPatternsFrom0Fail();
  }
  lemma DarkModeButtonDarkModeAt14()
    ensures LitAt(DarkModeMessage, 14, "dark mode")
  {
    LitAtFrom(DarkModeMessage, 14, "dark mode");
  }
  lemma DarkModeButtonDarkModePiece0At14()
    ensures MatchAt(DarkModePattern, 0, DarkModeMessage, 14, []) == Some((23, []))
  {
    DarkModeButtonDarkModeAt14();
  }
  lemma DarkModeButtonDarkModeSearchSkips12To14()
    ensures SearchFrom(DarkModePattern, DarkModeMessage, 12) == SearchFrom(DarkModePattern, DarkModeMessage, 14)
  {
    var t := DarkModeMessage;
    var p := DarkModePattern;
    forall n | 12 <= n < 14 ensures Blocked(p[0], t, n) { HeadMismatch(t, n, "dark mode"); }
    SearchSkips(p, t, 12, 14);
  }
  lemma DarkModeButtonNoDarkModeAt9()
    ensures !LitAt(DarkModeMessage, 9, "dark mode")
  {
    MismatchAt(DarkModeMessage, 9, "dark mode", 1);
  }
  lemma DarkModeButtonNoDarkModeAt10()
    ensures !LitAt(DarkModeMessage, 10, "dark mode")
  {
    MismatchAt(DarkModeMessage, 10, "dark mode", 1);
  }
  lemma DarkModeButtonDarkModeSearchSkips6To12()
    ensures SearchFrom(DarkModePattern, DarkModeMessage, 6) == SearchFrom(DarkModePattern, DarkModeMessage, 12)
  {
    var t := DarkModeMessage;
    var p := DarkModePattern;
    forall n | 6 <= n < 12 ensures Blocked(p[0], t, n) {
      if n == 9 { DarkModeButtonNoDarkModeAt9(); } else if n == 10 { DarkModeButtonNoDarkModeAt10(); } else { HeadMismatch(t, n, "dark mode"); }
    }
    SearchSkips(p, t, 6, 12);
  }
  lemma DarkModeButtonDarkModeSearchSkips0To6()
    ensures SearchFrom(DarkModePattern, DarkModeMessage, 0) == SearchFrom(DarkModePattern, DarkModeMessage, 6)
  {
    var t := DarkModeMessage;
    var p := DarkModePattern;
    forall n | 0 <= n < 6 ensures Blocked(p[0], t, n) { HeadMismatch(t, n, "dark mode"); }
    SearchSkips(p, t, 0, 6);
  }
  lemma DarkModeButtonDarkModeMatches()
    ensures Exec(DarkModePattern, DarkModeMessage).Some?
  {
    DarkModeButtonDarkModePiece0At14();
    DarkModeButtonDarkModeSearchSkips12To14();
    DarkModeButtonDarkModeSearchSkips6To12();
    DarkModeButtonDarkModeSearchSkips0To6();
  }
  lemma DarkModeButtonSupportPatternsFrom2Pick2()
    ensures FirstPattern(SupportRule.patterns, DarkModeMessage, 2) == Some(2)
  {
    DarkModeButtonDarkModeMatches();
  }
  lemma DarkModeButtonNoPayment()
    ensures Exec(PaymentPattern, DarkModeMessage).None?
  {
    NoMatchWithoutChar(PaymentPattern, DarkModeMessage, 0, 0);
  }
  lemma DarkModeButtonSupportPatternsFrom1Pick2()
    ensures FirstPattern(SupportRule.patterns, DarkModeMessage, 1) == Some(2)
  {
    DarkModeButtonNoPayment();
    DarkModeButtonSupportPatternsFrom2Pick2();
  }
  lemma DarkModeButtonNoAppCrash()
    ensures Exec(AppCrashPattern, DarkModeMessage).None?
  {
    NoMatchWithoutChar(AppCrashPattern, DarkModeMessage, 0, 1);
  }
  lemma DarkModeButtonSupportPatternsFrom0Pick2()
    ensures FirstPattern(SupportRule.patterns, DarkModeMessage, 0) == Some(2)
  {
    DarkModeButtonNoAppCrash();
    DarkModeButtonSupportPatternsFrom1Pick2();
  }
  lemma DarkModeButtonRule5PatternsFrom0Pick2()
    ensures FirstPattern(Intents[5].patterns, DarkModeMessage, 0) == Some(2)
  {
    DarkModeButtonSupportPatternsFrom0Pick2();
  }
  lemma DarkModeButtonRulesFrom5Pick5()
    ensures FirstRule(Intents, DarkModeMessage, 5) == Some(5)
  {
    DarkModeButtonRule5PatternsFrom0Pick2();
  }
  lemma DarkModeButtonRulesFrom4Pick5()
    ensures FirstRule(Intents, DarkModeMessage, 4) == Some(5)
  {
    DarkModeButtonRule4Misses();
    DarkModeButtonRulesFrom5Pick5();
  }
  lemma DarkModeButtonRulesFrom3Pick5()
    ensures FirstRule(Intents, DarkModeMessage, 3) == Some(5)
  {
    DarkModeButtonRule3Misses();
    DarkModeButtonRulesFrom4Pick5();
  }
  lemma DarkModeButtonRulesFrom2Pick5()
    ensures FirstRule(Intents, DarkModeMessage, 2) == Some(5)
  {
    DarkModeButtonRule2Misses();
    DarkModeButtonRulesFrom3Pick5();
  }
  lemma DarkModeButtonRulesFrom1Pick5()
    ensures FirstRule(Intents, DarkModeMessage, 1) == Some(5)
  {
    DarkModeButtonRule1Misses();
    DarkModeButtonRulesFrom2Pick5();
  }
  lemma DarkModeButtonRulesFrom0Pick5()
    ensures FirstRule(Intents, DarkModeMessage, 0) == Some(5)
  {
    DarkModeButtonRule0Misses();
    DarkModeButtonRulesFrom1Pick5();
  }
  lemma DarkModeButtonDispatch(svc: Services)
    ensures Dispatch(Intents, DarkModeMessage, svc) == Outcome(SupportReply, [])
  {
    DarkModeButtonRulesFrom0Pick5();
    StaticRuleAnswers(Intents, DarkModeMessage, svc, 5);
  }
  /** DarkModeMessage is answered by the support rule, through its last pattern. */
  lemma DarkModeButton(svc: Services)
    ensures Handle(Text(DarkModeMessage), svc, true) ==
      Handled(Replied(SupportReply), [SaveCall(ChatRecord(DarkModeMessage, SupportReply))])
  {
    DarkModeButtonDispatch(svc);
  }

  lemma BookingBeforeWeatherNoResetPassword()
    ensures Exec(ResetPasswordPattern, BookingWeatherMessage).None?
  {
    NoMatchWithoutChar(ResetPasswordPattern, BookingWeatherMessage, 0, 2);
  }
  lemma BookingBeforeWeatherAccountPatternsFrom1Fail()
    ensures FirstPattern(AccountRule.patterns, BookingWeatherMessage, 1).None?
  {
    BookingBeforeWeatherNoResetPassword();
  }
  lemma BookingBeforeWeatherNoLogin()
    ensures Exec(LoginPattern, BookingWeatherMessage).None?
  {
    assert LoginPattern[0].text[0] == 'l' && LoginPattern[0].text[1] == 'o';
    NoMatchWithoutPair(LoginPattern, BookingWeatherMessage, 0, 0);
  }
  lemma BookingBeforeWeatherAccountPatternsFrom0Fail()
    ensures FirstPattern(AccountRule.patterns, BookingWeatherMessage, 0).None?
  {
    BookingBeforeWeatherNoLogin();
    BookingBeforeWeatherAccountPatternsFrom1Fail();
  }
  lemma BookingBeforeWeatherRule0Misses()
    ensures !RuleMatches(Intents[0], BookingWeatherMessage)
  {
    BookingBeforeWeatherAccountPatternsFrom0Fail();
  }
  lemma BookingBeforeWeatherDotRunAt20()
    ensures DotRun(BookingWeatherMessage, 20) == 8
  {
    var t := BookingWeatherMessage;
    assert forall n :: 20 <= n < 26 ==> !IsLineTerminator(t[n]);
    assert forall n :: 26 <= n < 28 ==> !IsLineTerminator(t[n]);
    DotRunIs(t, 20, 8);
  }
  lemma BookingBeforeWeatherWordRunAt24()
    ensures WordRun(BookingWeatherMessage, 24) == 4
  {
    var t := BookingWeatherMessage;
    assert forall n :: 24 <= n < 28 ==> InWordClass(t[n]);
    WordRunIs(t, 24, 4);
  }
  lemma BookingBeforeWeatherWeatherInPiece3At24()
    ensures MatchAt(WeatherInPattern, 3, BookingWeatherMessage, 24, []) == Some((28, [Some("Rome")]))
  {
    BookingBeforeWeatherWordRunAt24();
    SliceIs(BookingWeatherMessage, 24, "Rome");
    assert [] + [Some(BookingWeatherMessage[24..28])] == [Some("Rome")];
  }
  lemma BookingBeforeWeatherInAt21()
    ensures LitAt(BookingWeatherMessage, 21, "in ")
  {
    LitAtFrom(BookingWeatherMessage, 21, "in ");
  }
  lemma BookingBeforeWeatherWeatherInPiece2At21()
    ensures MatchAt(WeatherInPattern, 2, BookingWeatherMessage, 21, []) == Some((28, [Some("Rome")]))
  {
    BookingBeforeWeatherWeatherInPiece3At24();
    BookingBeforeWeatherInAt21();
  }
  lemma BookingBeforeWeatherWeatherInPiece2At20BacksOff7To1()
    ensures Backtrack(WeatherInPattern, 2, BookingWeatherMessage, 20, 7, 0, false, []) == Backtrack(WeatherInPattern, 2, BookingWeatherMessage, 20, 1, 0, false, [])
  {
    var t := BookingWeatherMessage;
    var p := WeatherInPattern;
    forall n | 22 <= n < 28 ensures Blocked(p[2], t, n) { HeadMismatch(t, n, "in "); }
    BacktrackSkips(p, 2, t, 20, 7, 1, 0, false, []);
  }
  lemma BookingBeforeWeatherWeatherInPiece2At20BacksOff8To7()
    ensures Backtrack(WeatherInPattern, 2, BookingWeatherMessage, 20, 8, 0, false, []) == Backtrack(WeatherInPattern, 2, BookingWeatherMessage, 20, 7, 0, false, [])
  {
    var t := BookingWeatherMessage;
    var p := WeatherInPattern;
    forall n | 28 <= n < 29 ensures Blocked(p[2], t, n) { HeadMismatch(t, n, "in "); }
    BacktrackSkips(p, 2, t, 20, 8, 7, 0, false, []);
  }
  lemma BookingBeforeWeatherWeatherInPiece1At20()
    ensures MatchAt(WeatherInPattern, 1, BookingWeatherMessage, 20, []) == Some((28, [Some("Rome")]))
  {
    BookingBeforeWeatherDotRunAt20();
    BookingBeforeWeatherWeatherInPiece2At21();
    BookingBeforeWeatherWeatherInPiece2At20BacksOff7To1();
    BookingBeforeWeatherWeatherInPiece2At20BacksOff8To7();
  }
  lemma BookingBeforeWeatherWeatherAt13()
    ensures LitAt(BookingWeatherMessage, 13, "weather")
  {
    LitAtFrom(BookingWeatherMessage, 13, "weather");
  }
  lemma BookingBeforeWeatherWeatherInPiece0At13()
    ensures MatchAt(WeatherInPattern, 0, BookingWeatherMessage, 13, []) == Some((28, [Some("Rome")]))
  {
    BookingBeforeWeatherWeatherInPiece1At20();
    BookingBeforeWeatherWeatherAt13();
  }
  lemma BookingBeforeWeatherWeatherInSearchSkips12To13()
    ensures SearchFrom(WeatherInPattern, BookingWeatherMessage, 12) == SearchFrom(WeatherInPattern, BookingWeatherMessage, 13)
  {
    var t := BookingWeatherMessage;
    var p := WeatherInPattern;
    forall n | 12 <= n < 13 ensures Blocked(p[0], t, n) { HeadMismatch(t, n, "weather"); }
    SearchSkips(p, t, 12, 13);
  }
  lemma BookingBeforeWeatherWeatherInSearchSkips6To12()
    ensures SearchFrom(WeatherInPattern, BookingWeatherMessage, 6) == SearchFrom(WeatherInPattern, BookingWeatherMessage, 12)
  {
    var t := BookingWeatherMessage;
    var p := WeatherInPattern;
    forall n | 6 <= n < 12 ensures Blocked(p[0], t, n) { HeadMismatch(t, n, "weather"); }
    SearchSkips(p, t, 6, 12);
  }
  lemma BookingBeforeWeatherWeatherInSearchSkips0To6()
    ensures SearchFrom(WeatherInPattern, BookingWeatherMessage, 0) == SearchFrom(WeatherInPattern, BookingWeatherMessage, 6)
  {
    var t := BookingWeatherMessage;
    var p := WeatherInPattern;
    forall n | 0 <= n < 6 ensures Blocked(p[0], t, n) { HeadMismatch(t, n, "weather"); }
    SearchSkips(p, t, 0, 6);
  }
  lemma BookingBeforeWeatherWeatherInMatches()
    ensures Exec(WeatherInPattern, BookingWeatherMessage).Some?
  {
    BookingBeforeWeatherWeatherInPiece0At13();
    BookingBeforeWeatherWeatherInSearchSkips12To13();
    BookingBeforeWeatherWeatherInSearchSkips6To12();
    BookingBeforeWeatherWeatherInSearchSkips0To6();
  }
  lemma BookingBeforeWeatherRule2Pattern0Matches()
    ensures Exec(Intents[2].patterns[0], BookingWeatherMessage).Some?
  {
    BookingBeforeWeatherWeatherInMatches();
  }
  lemma BookingBeforeWeatherDotRunAt4()
    ensures DotRun(BookingWeatherMessage, 4) == 24
  {
    var t := BookingWeatherMessage;
    assert forall n :: 4 <= n < 10 ==> !IsLineTerminator(t[n]);
    assert forall n :: 10 <= n < 16 ==> !IsLineTerminator(t[n]);
    assert forall n :: 16 <= n < 22 ==> !IsLineTerminator(t[n]);
    assert forall n :: 22 <= n < 28 ==> !IsLineTerminator(t[n]);
    DotRunIs(t, 4, 24);
  }
  lemma BookingBeforeWeatherFlightAt5()
    ensures LitAt(BookingWeatherMessage, 5, "flight")
  {
    LitAtFrom(BookingWeatherMessage, 5, "flight");
  }
  lemma BookingBeforeWeatherBookFlightPiece2At5()
    ensures MatchAt(BookFlightPattern, 2, BookingWeatherMessage, 5, []) == Some((11, []))
  {
    BookingBeforeWeatherFlightAt5();
  }
  lemma BookingBeforeWeatherBookFlightPiece2At4BacksOff7To1()
    ensures Backtrack(BookFlightPattern, 2, BookingWeatherMessage, 4, 7, 0, false, []) == Backtrack(BookFlightPattern, 2, BookingWeatherMessage, 4, 1, 0, false, [])
  {
    var t := BookingWeatherMessage;
    var p := BookFlightPattern;
    forall n | 6 <= n < 12 ensures Blocked(p[2], t, n) { HeadMismatch(t, n, "flight"); }
    BacktrackSkips(p, 2, t, 4, 7, 1, 0, false, []);
  }
  lemma BookingBeforeWeatherBookFlightPiece2At4BacksOff13To7()
    ensures Backtrack(BookFlightPattern, 2, BookingWeatherMessage, 4, 13, 0, false, []) == Backtrack(BookFlightPattern, 2, BookingWeatherMessage, 4, 7, 0, false, [])
  {
    var t := BookingWeatherMessage;
    var p := BookFlightPattern;
    forall n | 12 <= n < 18 ensures Blocked(p[2], t, n) { HeadMismatch(t, n, "flight"); }
    BacktrackSkips(p, 2, t, 4, 13, 7, 0, false, []);
  }
  lemma BookingBeforeWeatherBookFlightPiece2At4BacksOff19To13()
    ensures Backtrack(BookFlightPattern, 2, BookingWeatherMessage, 4, 19, 0, false, []) == Backtrack(BookFlightPattern, 2, BookingWeatherMessage, 4, 13, 0, false, [])
  {
    var t := BookingWeatherMessage;
    var p := BookFlightPattern;
    forall n | 18 <= n < 24 ensures Blocked(p[2], t, n) { HeadMismatch(t, n, "flight"); }
    BacktrackSkips(p, 2, t, 4, 19, 13, 0, false, []);
  }
  lemma BookingBeforeWeatherBookFlightPiece2At4BacksOff24To19()
    ensures Backtrack(BookFlightPattern, 2, BookingWeatherMessage, 4, 24, 0, false, []) == Backtrack(BookFlightPattern, 2, BookingWeatherMessage, 4, 19, 0, false, [])
  {
    var t := BookingWeatherMessage;
    var p := BookFlightPattern;
    forall n | 24 <= n < 29 ensures Blocked(p[2], t, n) { HeadMismatch(t, n, "flight"); }
    BacktrackSkips(p, 2, t, 4, 24, 19, 0, false, []);
  }
  lemma BookingBeforeWeatherBookFlightPiece1At4()
    ensures MatchAt(BookFlightPattern, 1, BookingWeatherMessage, 4, []) == Some((11, []))
  {
    BookingBeforeWeatherDotRunAt4();
    BookingBeforeWeatherBookFlightPiece2At5();
    BookingBeforeWeatherBookFlightPiece2At4BacksOff7To1();
    BookingBeforeWeatherBookFlightPiece2At4BacksOff13To7();
    BookingBeforeWeatherBookFlightPiece2At4BacksOff19To13();
    BookingBeforeWeatherBookFlightPiece2At4BacksOff24To19();
  }
  lemma BookingBeforeWeatherBookAt0()
    ensures LitAt(BookingWeatherMessage, 0, "book")
  {
    LitAtFrom(BookingWeatherMessage, 0, "book");
  }
  lemma BookingBeforeWeatherBookFlightPiece0At0()
    ensures MatchAt(BookFlightPattern, 0, BookingWeatherMessage, 0, []) == Some((11, []))
  {
    BookingBeforeWeatherBookFlightPiece1At4();
    BookingBeforeWeatherBookAt0();
  }
  lemma BookingBeforeWeatherBookFlightMatches()
    ensures Exec(BookFlightPattern, BookingWeatherMessage).Some?
  {
    BookingBeforeWeatherBookFlightPiece0At0();
  }
  lemma BookingBeforeWeatherBookingPatternsFrom0Pick0()
    ensures FirstPattern(BookingRule.patterns, BookingWeatherMessage, 0) == Some(0)
  {
    BookingBeforeWeatherBookFlightMatches();
  }
  lemma BookingBeforeWeatherRule1PatternsFrom0Pick0()
    ensures FirstPattern(Intents[1].patterns, BookingWeatherMessage, 0) == Some(0)
  {
    BookingBeforeWeatherBookingPatternsFrom0Pick0();
  }
  lemma BookingBeforeWeatherRulesFrom1Pick1()
    ensures FirstRule(Intents, BookingWeatherMessage, 1) == Some(1)
  {
    BookingBeforeWeatherRule1PatternsFrom0Pick0();
  }
  lemma BookingBeforeWeatherRulesFrom0Pick1()
    ensures FirstRule(Intents, BookingWeatherMessage, 0) == Some(1)
  {
    BookingBeforeWeatherRule0Misses();
    BookingBeforeWeatherRulesFrom1Pick1();
  }
  lemma BookingBeforeWeatherDispatch(svc: Services)
    ensures Dispatch(Intents, BookingWeatherMessage, svc) == Outcome(BookingReply, [])
  {
    BookingBeforeWeatherRulesFrom0Pick1();
    StaticRuleAnswers(Intents, BookingWeatherMessage, svc, 1);
  }
  /** When patterns of two rules match, the earlier rule answers: here the booking rule, although the first weather pattern also matches, so no weather lookup is made. */
  lemma BookingBeforeWeather(svc: Services)
    ensures Exec(Intents[2].patterns[0], BookingWeatherMessage).Some? &&
      Handle(Text(BookingWeatherMessage), svc, true) ==
      Handled(Replied(BookingReply), [SaveCall(ChatRecord(BookingWeatherMessage, BookingReply))])
  {
    BookingBeforeWeatherDispatch(svc);
    BookingBeforeWeatherRule2Pattern0Matches();
  }

  lemma UnmatchedMessageNoResetPassword()
    ensures Exec(ResetPasswordPattern, UnmatchedMessageText).None?
  {
    NoMatchWithoutChar(ResetPasswordPattern, UnmatchedMessageText, 0, 0);
  }
  lemma UnmatchedMessageAccountPatternsFrom1Fail()
    ensures FirstPattern(AccountRule.patterns, UnmatchedMessageText, 1).None?
  {
    UnmatchedMessageNoResetPassword();
  }
  lemma UnmatchedMessageNoLogin()
    ensures Exec(LoginPattern, UnmatchedMessageText).None?
  {
    NoMatchWithoutChar(LoginPattern, UnmatchedMessageText, 0, 2);
  }
  lemma UnmatchedMessageAccountPatternsFrom0Fail()
    ensures FirstPattern(AccountRule.patterns, UnmatchedMessageText, 0).None?
  {
    UnmatchedMessageNoLogin();
    UnmatchedMessageAccountPatternsFrom1Fail();
  }
  lemma UnmatchedMessageRule0Misses()
    ensures !RuleMatches(Intents[0], UnmatchedMessageText)
  {
    UnmatchedMessageAccountPatternsFrom0Fail();
  }
  lemma UnmatchedMessageNoRentCar()
    ensures Exec(RentCarPattern, UnmatchedMessageText).None?
  {
    NoMatchWithoutChar(RentCarPattern, UnmatchedMessageText, 0, 0);
  }
  lemma UnmatchedMessageBookingPatternsFrom3Fail()
    ensures FirstPattern(BookingRule.patterns, UnmatchedMessageText, 3).None?
  {
    UnmatchedMessageNoRentCar();
  }
  lemma UnmatchedMessageNoRentalCar()
    ensures Exec(RentalCarPattern, UnmatchedMessageText).None?
  {
    NoMatchWithoutChar(RentalCarPattern, UnmatchedMessageText, 0, 0);
  }
  lemma UnmatchedMessageBookingPatternsFrom2Fail()
    ensures FirstPattern(BookingRule.patterns, UnmatchedMessageText, 2).None?
  {
    UnmatchedMessageNoRentalCar();
    UnmatchedMessageBookingPatternsFrom3Fail();
  }
  lemma UnmatchedMessageNoHotel()
    ensures Exec(HotelPattern, UnmatchedMessageText).None?
  {
    NoMatchWithoutChar(HotelPattern, UnmatchedMessageText, 0, 0);
  }
  lemma UnmatchedMessageBookingPatternsFrom1Fail()
    ensures FirstPattern(BookingRule.patterns, UnmatchedMessageText, 1).None?
  {
    UnmatchedMessageNoHotel();
    UnmatchedMessageBookingPatternsFrom2Fail();
  }
  lemma UnmatchedMessageNoBookFlight()
    ensures Exec(BookFlightPattern, UnmatchedMessageText).None?
  {
    NoMatchWithoutChar(BookFlightPattern, UnmatchedMessageText, 0, 0);
  }
  lemma UnmatchedMessageBookingPatternsFrom0Fail()
    ensures FirstPattern(BookingRule.patterns, UnmatchedMessageText, 0).None?
  {
    UnmatchedMessageNoBookFlight();
    UnmatchedMessageBookingPatternsFrom1Fail();
  }
  lemma UnmatchedMessageRule1Misses()
    ensures !RuleMatches(Intents[1], UnmatchedMessageText)
  {
    UnmatchedMessageBookingPatternsFrom0Fail();
  }
  lemma UnmatchedMessageNoHowWeather()
    ensures Exec(HowWeatherPattern, UnmatchedMessageText).None?
  {
    NoMatchWithoutChar(HowWeatherPattern, UnmatchedMessageText, 0, 0);
  }
  lemma UnmatchedMessageWeatherPatternsFrom2Fail()
    ensures FirstPattern(WeatherRule.patterns, UnmatchedMessageText, 2).None?
  {
    UnmatchedMessageNoHowWeather();
  }
  lemma UnmatchedMessageNoWhatWeather()
    ensures Exec(WhatWeatherPattern, UnmatchedMessageText).None?
  {
    NoMatchWithoutChar(WhatWeatherPattern, UnmatchedMessageText, 0, 0);
  }
  lemma UnmatchedMessageWeatherPatternsFrom1Fail()
    ensures FirstPattern(WeatherRule.patterns, UnmatchedMessageText, 1).None?
  {
    UnmatchedMessageNoWhatWeather();
    UnmatchedMessageWeatherPatternsFrom2Fail();
  }
  lemma UnmatchedMessageNoWeatherIn()
    ensures Exec(WeatherInPattern, UnmatchedMessageText).None?
  {
    NoMatchWithoutChar(WeatherInPattern, UnmatchedMessageText, 0, 0);
  }
  lemma UnmatchedMessageWeatherPatternsFrom0Fail()
    ensures FirstPattern(WeatherRule.patterns, UnmatchedMessageText, 0).None?
  {
    UnmatchedMessageNoWeatherIn();
    UnmatchedMessageWeatherPatternsFrom1Fail();
  }
  lemma UnmatchedMessageRule2Misses()
    ensures !RuleMatches(Intents[2], UnmatchedMessageText)
  {
    UnmatchedMessageWeatherPatternsFrom0Fail();
  }
  lemma UnmatchedMessageNoRainTomorrow()
    ensures Exec(RainTomorrowPattern, UnmatchedMessageText).None?
  {
    NoMatchWithoutChar(RainTomorrowPattern, UnmatchedMessageText, 0, 0);
  }
  lemma UnmatchedMessageForecastPatternsFrom2Fail()
    ensures FirstPattern(ForecastRule.patterns, UnmatchedMessageText, 2).None?
  {
    UnmatchedMessageNoRainTomorrow();
  }
  lemma UnmatchedMessageNoForecastIn()
    ensures Exec(ForecastInPattern, UnmatchedMessageText).None?
  {
    NoMatchWithoutChar(ForecastInPattern, UnmatchedMessageText, 0, 0);
  }
  lemma UnmatchedMessageForecastPatternsFrom1Fail()
    ensures FirstPattern(ForecastRule.patterns, UnmatchedMessageText, 1).None?
  {
    UnmatchedMessageNoForecastIn();
    UnmatchedMessageForecastPatternsFrom2Fail();
  }
  lemma UnmatchedMessageNoWillItRain()
    ensures Exec(WillItRainPattern, UnmatchedMessageText).None?
  {
    NoMatchWithoutChar(WillItRainPattern, UnmatchedMessageText, 0, 0);
  }
  lemma UnmatchedMessageForecastPatternsFrom0Fail()
    ensures FirstPattern(ForecastRule.patterns, UnmatchedMessageText, 0).None?
  {
    UnmatchedMessageNoWillItRain();
    UnmatchedMessageForecastPatternsFrom1Fail();
  }
  lemma UnmatchedMessageRule3Misses()
    ensures !RuleMatches(Intents[3], UnmatchedMessageText)
  {
    UnmatchedMessageForecastPatternsFrom0Fail();
  }
  lemma UnmatchedMessageNoTouristSpots()
    ensures Exec(TouristSpotsPattern, UnmatchedMessageText).None?
  {
    NoMatchWithoutChar(TouristSpotsPattern, UnmatchedMessageText, 0, 0);
  }
  lemma UnmatchedMessageTravelPatternsFrom4Fail()
    ensures FirstPattern(TravelRule.patterns, UnmatchedMessageText, 4).None?
  {
    UnmatchedMessageNoTouristSpots();
  }
  lemma UnmatchedMessageNoTopSpots()
    ensures Exec(TopSpotsPattern, UnmatchedMessageText).None?
  {
    NoMatchWithoutChar(TopSpotsPattern, UnmatchedMessageText, 0, 2);
  }
  lemma UnmatchedMessageTravelPatternsFrom3Fail()
    ensures FirstPattern(TravelRule.patterns, UnmatchedMessageText, 3).None?
  {
    UnmatchedMessageNoTopSpots();
    UnmatchedMessageTravelPatternsFrom4Fail();
  }
  lemma UnmatchedMessageNoExchangeRate()
    ensures Exec(ExchangeRatePattern, UnmatchedMessageText).None?
  {
    NoMatchWithoutChar(ExchangeRatePattern, UnmatchedMessageText, 0, 1);
  }
  lemma UnmatchedMessageTravelPatternsFrom2Fail()
    ensures FirstPattern(TravelRule.patterns, UnmatchedMessageText, 2).None?
  {
    UnmatchedMessageNoExchangeRate();
    UnmatchedMessageTravelPatternsFrom3Fail();
  }
  lemma UnmatchedMessageNoNeedVisa()
    ensures Exec(NeedVisaPattern, UnmatchedMessageText).None?
  {
    NoMatchWithoutChar(NeedVisaPattern, UnmatchedMessageText, 0, 0);
  }
  lemma UnmatchedMessageTravelPatternsFrom1Fail()
    ensures FirstPattern(TravelRule.patterns, UnmatchedMessageText, 1).None?
  {
    UnmatchedMessageNoNeedVisa();
    UnmatchedMessageTravelPatternsFrom2Fail();
  }
  lemma UnmatchedMessageNoVisa()
    ensures Exec(VisaPattern, UnmatchedMessageText).None?
  {
    NoMatchWithoutChar(VisaPattern, UnmatchedMessageText, 0, 0);
  }
  lemma UnmatchedMessageTravelPatternsFrom0Fail()
    ensures FirstPattern(TravelRule.patterns, UnmatchedMessageText, 0).None?
  {
    UnmatchedMessageNoVisa();
    UnmatchedMessageTravelPatternsFrom1Fail();
  }
  lemma UnmatchedMessageRule4Misses()
    ensures !RuleMatches(Intents[4], UnmatchedMessageText)
  {
    UnmatchedMessageTravelPatternsFrom0Fail();
  }
  lemma UnmatchedMessageNoDarkMode()
    ensures Exec(DarkModePattern, UnmatchedMessageText).None?
  {
    NoMatchWithoutChar(DarkModePattern, UnmatchedMessageText, 0, 0);
  }
  lemma UnmatchedMessageSupportPatternsFrom2Fail()
    ensures FirstPattern(SupportRule.patterns, UnmatchedMessageText, 2).None?
  {
    UnmatchedMessageNoDarkMode();
  }
  lemma UnmatchedMessageNoPayment()
    ensures Exec(PaymentPattern, UnmatchedMessageText).None?
  {
    NoMatchWithoutChar(PaymentPattern, UnmatchedMessageText, 0, 0);
  }
  lemma UnmatchedMessageSupportPatternsFrom1Fail()
    ensures FirstPattern(SupportRule.patterns, UnmatchedMessageText, 1).None?
  {
    UnmatchedMessageNoPayment();
    UnmatchedMessageSupportPatternsFrom2Fail();
  }
  lemma UnmatchedMessageNoAppCrash()
    ensures Exec(AppCrashPattern, UnmatchedMessageText).None?
  {
    NoMatchWithoutChar(AppCrashPattern, UnmatchedMessageText, 0, 1);
  }
  lemma UnmatchedMessageSupportPatternsFrom0Fail()
    ensures FirstPattern(SupportRule.patterns, UnmatchedMessageText, 0).None?
  {
    UnmatchedMessageNoAppCrash();
    UnmatchedMessageSupportPatternsFrom1Fail();
  }
  lemma UnmatchedMessageRule5Misses()
    ensures !RuleMatches(Intents[5], UnmatchedMessageText)
  {
    UnmatchedMessageSupportPatternsFrom0Fail();
  }
  lemma UnmatchedMessageRulesFrom5Fail()
    ensures FirstRule(Intents, UnmatchedMessageText, 5).None?
  {
    UnmatchedMessageRule5Misses();
  }
  lemma UnmatchedMessageRulesFrom4Fail()
    ensures FirstRule(Intents, UnmatchedMessageText, 4).None?
  {
    UnmatchedMessageRule4Misses();
    UnmatchedMessageRulesFrom5Fail();
  }
  lemma UnmatchedMessageRulesFrom3Fail()
    ensures FirstRule(Intents, UnmatchedMessageText, 3).None?
  {
    UnmatchedMessageRule3Misses();
    UnmatchedMessageRulesFrom4Fail();
  }
  lemma UnmatchedMessageRulesFrom2Fail()
    ensures FirstRule(Intents, UnmatchedMessageText, 2).None?
  {
    UnmatchedMessageRule2Misses();
    UnmatchedMessageRulesFrom3Fail();
  }
  lemma UnmatchedMessageRulesFrom1Fail()
    ensures FirstRule(Intents, UnmatchedMessageText, 1).None?
  {
    UnmatchedMessageRule1Misses();
    UnmatchedMessageRulesFrom2Fail();
  }
  lemma UnmatchedMessageRulesFrom0Fail()
    ensures FirstRule(Intents, UnmatchedMessageText, 0).None?
  {
    UnmatchedMessageRule0Misses();
    UnmatchedMessageRulesFrom1Fail();
  }
  lemma UnmatchedMessageDispatch(svc: Services)
    ensures Dispatch(Intents, UnmatchedMessageText, svc) == Outcome(ChatWithGemini(svc, UnmatchedMessageText), [GeminiCall(UnmatchedMessageText)])
  {
    UnmatchedMessageRulesFrom0Fail();
    NoMatchAsksModel(Intents, UnmatchedMessageText, svc);
  }
  /** A message no pattern matches is answered by the model, asked once with the message. */
  lemma UnmatchedMessage(svc: Services)
    ensures Handle(Text(UnmatchedMessageText), svc, true) ==
      Handled(Replied(ChatWithGemini(svc, UnmatchedMessageText)), [GeminiCall(UnmatchedMessageText), SaveCall(ChatRecord(UnmatchedMessageText, ChatWithGemini(svc, UnmatchedMessageText)))])
  {
    UnmatchedMessageDispatch(svc);
  }
}
