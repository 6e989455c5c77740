/** The History page: the case-insensitive bias classifiers, the two-reason
    preview, the state `fetchAnalyses` leaves and the view chosen from it. */
module History {
  import opened Common

  /** A stored analysis, reduced to what the page shows. */
  datatype ChartAnalysis = ChartAnalysis(id: string, imageUrl: string, bias: string, reasons: seq<string>)

  /** `getBiasIcon`, switching on the lower-cased bias: 'bullish' in any
      case rises, 'bearish' in any case falls, anything else is a dash. */
  function GetBiasIcon(bias: string): (r: Icon)
    ensures r == TrendingUp <==> Lower(bias) == "bullish"
    ensures r == TrendingDown <==> Lower(bias) == "bearish"
    ensures r == Minus <==> Lower(bias) != "bullish" && Lower(bias) != "bearish"
  {
    var b := Lower(bias);
    if b == "bullish" then TrendingUp else if b == "bearish" then TrendingDown else Minus
  }

  /** `getBiasColor`, switching on the lower-cased bias: green for 'bullish'
      in any case, red for 'bearish' in any case, yellow otherwise. */
  function GetBiasColor(bias: string): (c: string)
    ensures c == "text-green-500" <==> Lower(bias) == "bullish"
    ensures c == "text-red-500" <==> Lower(bias) == "bearish"
    ensures c == "text-yellow-500" <==> Lower(bias) != "bullish" && Lower(bias) != "bearish"
  {
    assert "text-green-500"[5] != "text-red-500"[5];
    assert "text-green-500"[5] != "text-yellow-500"[5];
    assert "text-red-500"[5] != "text-yellow-500"[5];
    var b := Lower(bias);
    if b == "bullish" then "text-green-500" else if b == "bearish" then "text-red-500" else "text-yellow-500"
  }

  /** Both classifiers lower-case first, so they give a bias and its lower-cased
      form the same icon and colour. */
  lemma CaseInsensitive(bias: string)
    ensures GetBiasIcon(bias) == GetBiasIcon(Lower(bias))
    ensures GetBiasColor(bias) == GetBiasColor(Lower(bias))
  {
    LowerIdempotent(bias);
  }

  /** 'bullish' in any case is green and rising, 'bearish' red and falling,
      anything else yellow with a dash; and for every bias the icon and the
      colour pick the same one of the three cases. */
  lemma IconAndColorAgree(bias: string)
    ensures GetBiasIcon(bias) == TrendingUp <==> Lower(bias) == "bullish"
    ensures GetBiasIcon(bias) == TrendingDown <==> Lower(bias) == "bearish"
    ensures GetBiasIcon(bias) == TrendingUp <==> GetBiasColor(bias) == "text-green-500"
    ensures GetBiasIcon(bias) == TrendingDown <==> GetBiasColor(bias) == "text-red-500"
    ensures GetBiasIcon(bias) == Minus <==> GetBiasColor(bias) == "text-yellow-500"
  {
    assert "text-green-500"[5] != "text-red-500"[5];
    assert "text-green-500"[5] != "text-yellow-500"[5];
    assert "text-red-500"[5] != "text-yellow-500"[5];
  }

  /** `reasons.slice(0, 2)`. */
  function Preview(reasons: seq<string>): (p: seq<string>)
    ensures |p| == if |reasons| < 2 then |reasons| else 2
    ensures forall i :: 0 <= i < |p| ==> p[i] == reasons[i]
  {
    reasons[..if |reasons| < 2 then |reasons| else 2]
  }

  /** One card of the grid. */
  datatype Card = Card(key: string, imageUrl: string, icon: Icon, color: string,
                       bias: string, points: seq<string>)

  function CardOf(a: ChartAnalysis): Card {
    Card(a.id, a.imageUrl, GetBiasIcon(a.bias), GetBiasColor(a.bias), a.bias, Preview(a.reasons))
  }

  /** `analyses.map(...)`: one card per analysis, in list order. */
  function Cards(analyses: seq<ChartAnalysis>): (cards: seq<Card>)
    ensures |cards| == |analyses|
    ensures forall i :: 0 <= i < |analyses| ==> cards[i] == CardOf(analyses[i])
    decreases |analyses|
  {
    if analyses == [] then []
    else Cards(analyses[..|analyses| - 1]) + [CardOf(analyses[|analyses| - 1])]
  }

  datatype View = LoadingMessage | EmptyMessage | Grid(cards: seq<Card>)

  /** The loading message while loading, the empty-state message once loaded
      with no analyses, and the grid of cards otherwise. */
  function ViewOf(loading: bool, analyses: seq<ChartAnalysis>): (v: View)
    ensures v == LoadingMessage <==> loading
    ensures v == EmptyMessage <==> !loading && analyses == []
    ensures v.Grid? ==> (|v.cards| == |analyses| > 0
      && forall i :: 0 <= i < |analyses| ==> v.cards[i] == CardOf(analyses[i]))
  {
    if loading then LoadingMessage
    else if |analyses| == 0 then EmptyMessage
    else Grid(Cards(analyses))
  }

  /** How the query settles: the awaited call rejects, or it answers with
      `data` (None for null) and an `error` flag. */
  datatype Fetch = Rejected | Answer(data: Option<seq<ChartAnalysis>>, failed: bool)

  class Page {
    var analyses: seq<ChartAnalysis>
    var loading: bool

    constructor ()
      ensures analyses == [] && loading
    {
      analyses := [];
      loading := true;
    }

    /** `fetchAnalyses`: an error leaves the list as it was, null data
        becomes the empty list, and `loading` ends false in every case. */
    method FetchAnalyses(f: Fetch)
      modifies this
      ensures !loading
      ensures f.Rejected? || f.failed ==> analyses == old(analyses)
      ensures f.Answer? && !f.failed ==>
        analyses == match f.data case Some(rows) => rows case None => []
    {
      if f.Answer? && !f.failed {
        analyses := match f.data case Some(rows) => rows case None => [];
      }
      loading := false;
    }

    function View(): View
      reads this
    {
      ViewOf(loading, analyses)
    }
  }

  /** A first load that fails shows the empty-state message, never a grid. */
  method FailedFirstLoad() returns (v: View)
    ensures v == EmptyMessage
  {
    var page := new Page();
    page.FetchAnalyses(Rejected);
    v := page.View();
  }
}
