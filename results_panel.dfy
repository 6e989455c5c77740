/** The results panel: the exact-match bias classifiers and the list of
    key points drawn from the stored result. */
module ResultsPanel {
  import opened Common
  import opened JsonValue

  /** An icon with the colour class it is drawn in. */
  datatype ColoredIcon = ColoredIcon(icon: Icon, colorClass: string)

  /** `getBiasIcon`, switching on the bias exactly as given: only the exact
      strings 'bullish' and 'bearish' leave the default dash. */
  function GetBiasIcon(bias: string): (r: ColoredIcon)
    ensures r.icon == TrendingUp <==> bias == "bullish"
    ensures r.icon == TrendingDown <==> bias == "bearish"
    ensures r.icon == Minus <==> bias != "bullish" && bias != "bearish"
  {
    if bias == "bullish" then ColoredIcon(TrendingUp, "text-green-400")
    else if bias == "bearish" then ColoredIcon(TrendingDown, "text-red-400")
    else ColoredIcon(Minus, "text-yellow-400")
  }

  /** `getBiasColor`, the colour of the heading: green for exactly 'bullish',
      red for exactly 'bearish', yellow for every other value. */
  function GetBiasColor(bias: string): (c: string)
    ensures c == "text-green-400" <==> bias == "bullish"
    ensures c == "text-red-400" <==> bias == "bearish"
    ensures c == "text-yellow-400" <==> bias != "bullish" && bias != "bearish"
  {
    assert "text-green-400"[5] != "text-red-400"[5];
    assert "text-green-400"[5] != "text-yellow-400"[5];
    assert "text-red-400"[5] != "text-yellow-400"[5];
    if bias == "bullish" then "text-green-400"
    else if bias == "bearish" then "text-red-400"
    else "text-yellow-400"
  }

  /** The icon is drawn in the colour of the heading for every bias. */
  lemma IconMatchesHeading(bias: string)
    ensures GetBiasIcon(bias).colorClass == GetBiasColor(bias)
    ensures GetBiasIcon(bias).icon == TrendingUp <==> bias == "bullish"
    ensures GetBiasIcon(bias).icon == TrendingDown <==> bias == "bearish"
    ensures GetBiasIcon(bias).icon == Minus <==> bias != "bullish" && bias != "bearish"
  {
  }

  /** One `<li>` of the key points, keyed by its index. */
  datatype Item<T> = Item(key: nat, reason: T)

  /** `reasons.map((reason, index) => <li key={index}>...)`. */
  function ReasonItems<T>(reasons: seq<T>): (items: seq<Item<T>>)
    ensures |items| == |reasons|
    ensures forall i :: 0 <= i < |reasons| ==> items[i] == Item(i, reasons[i])
    decreases |reasons|
  {
    if reasons == [] then []
    else ReasonItems(reasons[..|reasons| - 1]) + [Item(|reasons| - 1, reasons[|reasons| - 1])]
  }

  /** The key-points list of a rendering, or the render error of
      `result.reasons.map` when `reasons` is not an array. */
  datatype KeyPoints = RenderError | KeyPoints(items: seq<Item<Json>>)

  /** The key points of the result the page stored unchecked: one item per
      element of an array `reasons`, in order, and a render error when the
      result has no `reasons` field or it holds anything but an array. */
  function KeyPointsOf(result: Json): (k: KeyPoints)
    ensures k.KeyPoints? <==> Field(result, "reasons").Some? && Field(result, "reasons").value.JArray?
    ensures k.KeyPoints? ==> var rs := Field(result, "reasons").value.items;
      |k.items| == |rs| && forall i :: 0 <= i < |rs| ==> k.items[i] == Item(i, rs[i])
  {
    match Field(result, "reasons")
    case Some(JArray(rs)) => KeyPoints(ReasonItems(rs))
    case _ => RenderError
  }

  /** A parsed answer with no `reasons` array, such as `{"bias": "ranging"}`,
      fails to render. */
  lemma MissingReasonsFails(bias: Json)
    ensures KeyPointsOf(JObject(map["bias" := bias])) == RenderError
  {
  }
}
