/**
 * The two outbound helpers the controller awaits: `getWeather` (server/src/utils/weather.js)
 * and `chatWithGemini` (server/src/utils/gemini.js). Each wraps one remote call in a
 * try/catch and turns every failure into a fixed sentence, so neither ever throws.
 *
 * The remote calls themselves are parameters: `Services` holds, as total functions, what
 * the OpenWeatherMap endpoint and the Gemini model answer for a given argument, `None`
 * standing for any exception on the way (network or HTTP error, missing API key, a
 * payload lacking an object on the property path read, so that reading a field of
 * `undefined` throws). A last field that is merely missing, such as a first part without
 * `text`, yields `undefined` without throwing; `Services` cannot express that answer.
 */
module Helpers {
  import opened Wrappers

  const WeatherUnavailable: string := "Unable to fetch weather data at the moment."
  const GeminiUnavailable: string := "Sorry, I'm unable to respond right now."

  /**
   * The fields of a weather answer that `getWeather` reads: `data.name`,
   * `data.weather[0].description` and `data.main.temp`, the temperature already rendered
   * as JavaScript prints the number.
   */
  datatype WeatherReport = WeatherReport(cityName: string, description: string, temperature: string)

  /**
   * What the remote services answer. The weather lookup is keyed by the city argument
   * as passed, `None` being `undefined`; the model is keyed by the prompt text.
   */
  datatype Services = Services(
    weatherApi: Option<string> -> Option<WeatherReport>,
    geminiApi: string -> Option<string>)

  /** The success line of `getWeather`. */
  function WeatherLine(report: WeatherReport): string {
    "Current weather in " + report.cityName + ": " + report.description +
    ", temperature: " + report.temperature + "°C"
  }

  /** `getWeather(city)`: the report line, or the fixed sentence when anything failed. */
  function GetWeather(svc: Services, city: Option<string>): (r: string)
    ensures r != ""
    ensures r == WeatherUnavailable <==> svc.weatherApi(city).None?
    ensures svc.weatherApi(city).Some? ==> r == WeatherLine(svc.weatherApi(city).value)
  {
    match svc.weatherApi(city)
    case Some(report) =>
      var line := WeatherLine(report);
      assert line[0] == 'C' && WeatherUnavailable[0] == 'U';
      line
    case None => WeatherUnavailable
  }

  /**
   * `chatWithGemini(message)`: an empty message is refused before the model is asked;
   * otherwise the text of the first part of the first candidate, or the fixed sentence.
   */
  function ChatWithGemini(svc: Services, message: string): (r: string)
    ensures message == "" ==> r == GeminiUnavailable
    ensures message != "" && svc.geminiApi(message).None? ==> r == GeminiUnavailable
    ensures message != "" && svc.geminiApi(message).Some? ==> r == svc.geminiApi(message).value
  {
    if message == "" then GeminiUnavailable
    else svc.geminiApi(message).GetOr(GeminiUnavailable)
  }
}
