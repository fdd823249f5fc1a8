/**
 * The intent table of the chat controller (server/src/controllers/chat.controller.js):
 * six rules in priority order, each a category label, its patterns in order, and one
 * responder, either a fixed reply or the weather lookup on capture group 1.
 */
module IntentTable {
  import opened Wrappers
  import opened JsRegex

  /** A rule answers with a fixed text, or with `getWeather(match[1])`. */
  datatype Responder = Static(response: string) | WeatherAction

  datatype IntentRule = IntentRule(category: string, patterns: seq<Pattern>, responder: Responder)

  /** The group the weather actions pass to `getWeather`. */
  const CityGroup: nat := 1

  const AccountReply: string := "For login or password reset issues, please visit your account settings or use the 'Forgot Password' option."

  const LoginPattern: Pattern := [Lit("login")]
  const ResetPasswordPattern: Pattern := [Lit("reset"), AnyRun, Lit("password")]

  const AccountRule: IntentRule := IntentRule(
    "Account Management",
    [ LoginPattern, ResetPasswordPattern ],
    Static(AccountReply))

  const BookingReply: string := "I'd love to help you with bookings. Please provide the destination, dates, and your budget."

  const BookFlightPattern: Pattern := [Lit("book"), AnyRun, Lit("flight")]
  const HotelPattern: Pattern := [Lit("hotel"), AnyRun, GroupAlt(["reserve", "book", "find"])]
  const RentalCarPattern: Pattern := [Lit("rental"), AnyRun, Lit("car")]
  const RentCarPattern: Pattern := [Lit("rent"), AnyRun, Lit("car")]

  const BookingRule: IntentRule := IntentRule(
    "Booking & Reservations",
    [ BookFlightPattern, HotelPattern, RentalCarPattern, RentCarPattern ],
    Static(BookingReply))

  const WeatherInPattern: Pattern := [Lit("weather"), AnyRun, Lit("in "), GroupWord]
  const WhatWeatherPattern: Pattern := [Lit("what"), AnyRun, Lit("weather"), AnyRun, Lit("in "), GroupWord]
  const HowWeatherPattern: Pattern := [Lit("how"), AnyRun, Lit("weather"), AnyRun, Lit("in "), GroupWord]

  const WeatherRule: IntentRule := IntentRule(
    "Weather",
    [ WeatherInPattern, WhatWeatherPattern, HowWeatherPattern ],
    WeatherAction)

  const WillItRainPattern: Pattern := [Lit("will it rain"), AnyRun, Lit("in "), GroupWord]
  const ForecastInPattern: Pattern := [Lit("forecast"), AnyRun, Lit("in "), GroupWord]
  const RainTomorrowPattern: Pattern := [Lit("rain"), AnyRun, Lit("tomorrow"), AnyRun, Lit("in "), GroupWord]

  const ForecastRule: IntentRule := IntentRule(
    "Forecast",
    [ WillItRainPattern, ForecastInPattern, RainTomorrowPattern ],
    WeatherAction)

  const TravelReply: string := "I can assist with visa information, currency exchange rates, and local attractions. Please specify the country or city you're interested in."

  const VisaPattern: Pattern := [Lit("visa"), AnyRun, GroupOptional("for"), Lit(" "), GroupWord]
  const NeedVisaPattern: Pattern := [Lit("do i need"), AnyChar, Lit("visa"), AnyChar, GroupWord]
  const ExchangeRatePattern: Pattern := [Lit("exchange"), AnyRun, Lit("rate")]
  const TopSpotsPattern: Pattern := [Lit("top"), AnyRun, GroupAlt(["spots", "places"]), AnyRun, Lit("in "), GroupWord]
  const TouristSpotsPattern: Pattern := [Lit("what"), AnyChar, Lit("tourist"), AnyChar, GroupAlt(["spots", "places"]), AnyRun, Lit("in "), GroupWord]

  const TravelRule: IntentRule := IntentRule(
    "Travel Assistance",
    [ VisaPattern, NeedVisaPattern, ExchangeRatePattern, TopSpotsPattern, TouristSpotsPattern ],
    Static(TravelReply))

  const SupportReply: string := "Thank you for your feedback. For app crashes, please try reinstalling the application. We're continuously working on improvements, including features like dark mode."

  const AppCrashPattern: Pattern := [Lit("app"), AnyRun, GroupAlt(["crash", "not working"])]
  const PaymentPattern: Pattern := [Lit("payment"), AnyRun, GroupAlt(["fail", "issue"])]
  const DarkModePattern: Pattern := [Lit("dark mode")]

  const SupportRule: IntentRule := IntentRule(
    "Technical Support",
    [ AppCrashPattern, PaymentPattern, DarkModePattern ],
    Static(SupportReply))

  /** `intents`, in the order the scan tries them. */
  const Intents: seq<IntentRule> :=
    [AccountRule, BookingRule, WeatherRule, ForecastRule, TravelRule, SupportRule]

  /** Every fixed reply of the table is a non-empty text. */
  lemma StaticRepliesNonEmpty(k: nat)
    requires k < |Intents| && Intents[k].responder.Static?
    ensures Intents[k].responder.response != ""
  {
  }

  /** Every pattern of a weather-action rule ends in the one group `([a-zA-Z\s]+)`. */
  lemma ActionPatternsEndInWordGroup(k: nat, q: nat)
    requires k < |Intents| && Intents[k].responder.WeatherAction? && q < |Intents[k].patterns|
    ensures EndsInWordGroup(Intents[k].patterns[q])
  {
    if k == 2 {
      assert Intents[k] == WeatherRule;
    } else {
      assert Intents[k] == ForecastRule;
    }
  }

  /**
   * So whenever a weather-action pattern matches, `match[1]` is defined and is a non-empty
   * run of letters and white space.
   */
  lemma ActionMatchCapturesCity(k: nat, q: nat, t: string)
    requires k < |Intents| && Intents[k].responder.WeatherAction?
    requires q < |Intents[k].patterns| && Exec(Intents[k].patterns[q], t).Some?
    ensures var m := Exec(Intents[k].patterns[q], t).value;
      CityGroup < |m.groups| && m.groups[CityGroup].Some? && IsWord(m.groups[CityGroup].value)
  {
    ActionPatternsEndInWordGroup(k, q);
    WordGroupCaptured(Intents[k].patterns[q], t);
  }
}
