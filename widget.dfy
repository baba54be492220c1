/**
 * The "Get Weather" button callback (src/main.rs:114-155) as a state update
 * on the window's widgets. The HTTP request and the JSON decoding are not
 * modelled: a click receives the response status and the decoder's outcome
 * as inputs.
 */
module Widget {
  import opened Wrappers
  import Icons
  import Status

  /** One condition entry of a response (src/main.rs:63-69). */
  datatype Weather = Weather(id: int, main: string, description: string, icon: string)

  /** The part of a decoded response the callback reads (src/main.rs:13-28):
      the condition entries, and the text that `{}` formats for the
      temperature and for the wind speed. */
  datatype Response = Response(weather: seq<Weather>, temp: string, windSpeed: string)

  /** What the window shows: the text field, the five labels, and the alert
      (if any) the latest click raised. */
  datatype Screen = Screen(
    cityInput: string,
    cityLbl: string,
    tempLbl: string,
    windLbl: string,
    icoLbl: string,
    descLbl: string,
    alert: Option<string>)

  const TempSuffix := "°C "
  const WindSuffix := "m/s"

  predicate EndsWith(s: string, suffix: string)
  {
    |suffix| <= |s| && s[|s| - |suffix|..] == suffix
  }

  /** The callback indexes `weather[0]` of a decoded 200 response; the source
      panics when that sequence is empty, so a click must not deliver one. */
  predicate Renderable(status: int, decoded: Result<Response, string>)
  {
    status == Status.Ok && decoded.Success? ==> decoded.value.weather != []
  }

  /** The reading labels after a successful decode; the icon label keeps its
      text when the condition id falls through to the wildcard arm. */
  function Render(s: Screen, data: Response): Screen
    requires data.weather != []
  {
    var icon := match Icons.IconFor(data.weather[0].id)
      case Some(i) => Icons.Glyph(i)
      case None => s.icoLbl;
    s.(tempLbl := data.temp + TempSuffix,
       windLbl := data.windSpeed + WindSuffix,
       icoLbl := icon,
       descLbl := data.weather[0].description)
  }

  /** One click: echo the typed city into the city label and clear the text
      field, then render the response or raise an alert. */
  function Step(s: Screen, status: int, decoded: Result<Response, string>): Screen
    requires Renderable(status, decoded)
  {
    var s := s.(cityInput := "", cityLbl := s.cityInput, alert := None);
    match Status.Classify(status)
    case Alert(message) => s.(alert := Some(message))
    case Decode =>
      match decoded
      case Failure(e) => s.(alert := Some(e))
      case Success(data) => Render(s, data)
  }

  /** Whatever the outcome, the typed city moves into the city label and the
      text field is cleared. */
  lemma ClickEchoesCity(s: Screen, status: int, decoded: Result<Response, string>)
    requires Renderable(status, decoded)
    ensures Step(s, status, decoded).cityLbl == s.cityInput
    ensures Step(s, status, decoded).cityInput == ""
  {
  }

  /** An alert is raised exactly when the click does not render a response. */
  lemma AlertIffNotRendered(s: Screen, status: int, decoded: Result<Response, string>)
    requires Renderable(status, decoded)
    ensures Step(s, status, decoded).alert.None? <==> status == 200 && decoded.Success?
  {
  }

  /** A status other than 200 raises the status's alert and leaves every
      reading label as it was. */
  lemma HttpErrorTouchesNoReading(s: Screen, status: int, decoded: Result<Response, string>)
    requires status != 200
    ensures var t := Step(s, status, decoded);
      t.tempLbl == s.tempLbl && t.windLbl == s.windLbl &&
      t.icoLbl == s.icoLbl && t.descLbl == s.descLbl &&
      t.alert == Some(Status.Classify(status).message)
  {
  }

  /** A 200 whose body does not decode raises the decoder's error text and
      leaves every reading label as it was. */
  lemma DecodeErrorTouchesNoReading(s: Screen, e: string)
    ensures var t := Step(s, 200, Failure(e));
      t.tempLbl == s.tempLbl && t.windLbl == s.windLbl &&
      t.icoLbl == s.icoLbl && t.descLbl == s.descLbl &&
      t.alert == Some(e)
  {
  }

  /** A 200 that decodes shows the first entry's description, a temperature
      ending in "°C " and a wind speed ending in "m/s", the icon the rule
      selects, and raises no alert. */
  lemma SuccessRendersResponse(s: Screen, data: Response)
    requires data.weather != []
    ensures var t := Step(s, 200, Success(data));
      t.descLbl == data.weather[0].description &&
      EndsWith(t.tempLbl, "°C ") && EndsWith(t.windLbl, "m/s") &&
      (forall i :: Icons.IconFor(data.weather[0].id) == Some(i) ==> t.icoLbl == Icons.Glyph(i)) &&
      t.alert.None?
  {
  }

  /** A condition id no arm covers keeps the icon of the previous click. */
  lemma UncoveredIdKeepsIcon(s: Screen, data: Response)
    requires data.weather != []
    requires Icons.IconFor(data.weather[0].id).None?
    ensures Step(s, 200, Success(data)).icoLbl == s.icoLbl
  {
  }

  /** The application window: the text field and labels the callback updates. */
  class WeatherWindow {
    var cityInput: string
    var cityLbl: string
    var tempLbl: string
    var windLbl: string
    var icoLbl: string
    var descLbl: string
    var alert: Option<string>

    function View(): Screen
      reads this
    {
      Screen(cityInput, cityLbl, tempLbl, windLbl, icoLbl, descLbl, alert)
    }

    /** Every widget starts with an empty text (src/main.rs:88-109). */
    constructor ()
      ensures View() == Screen("", "", "", "", "", "", None)
    {
      cityInput, cityLbl, tempLbl, windLbl, icoLbl, descLbl := "", "", "", "", "", "";
      alert := None;
    }

    /** The button callback: `status` is the response status and `decoded`
        what the JSON decoder made of the body. */
    method OnClick(status: int, decoded: Result<Response, string>)
      requires Renderable(status, decoded)
      modifies this
      ensures View() == Step(old(View()), status, decoded)
    {
      var city := cityInput;
      cityInput := "";
      cityLbl := city;
      alert := None;
      var verdict := Status.Classify(status);
      match verdict {
        case Decode =>
          match decoded {
            case Success(data) =>
              tempLbl := data.temp + TempSuffix;
              windLbl := data.windSpeed + WindSuffix;
              var icon := Icons.IconFor(data.weather[0].id);
              if icon.Some? {
                icoLbl := Icons.Glyph(icon.value);
              }
              descLbl := data.weather[0].description;
            case Failure(e) =>
              alert := Some(e);
          }
        case Alert(message) =>
          alert := Some(message);
      }
    }
  }
}
