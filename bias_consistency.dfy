/** How the three bias classifiers of the code relate: the History page and
    the image export lower-case the bias, the results panel does not. */
module BiasConsistency {
  import opened Common
  import History
  import ResultsPanel
  import Export

  /** The case the results panel picks, as one of the three icons. */
  function PanelCase(bias: string): Icon {
    ResultsPanel.GetBiasIcon(bias).icon
  }

  /** The results panel and the History page choose the same case for a bias
      unless the bias spells 'bullish' or 'bearish' with some capital letter:
      then History recognises it and the panel falls to the default. */
  lemma PanelAgreesWithHistory(bias: string)
    ensures PanelCase(bias) == History.GetBiasIcon(bias) <==>
      !((Lower(bias) == "bullish" || Lower(bias) == "bearish") && bias != Lower(bias))
  {
    if bias == "bullish" {
      LowerOfLowercase("bullish");
    } else if bias == "bearish" {
      LowerOfLowercase("bearish");
    } else {
      PanelDefault(bias);
    }
  }

  /** Away from the two exact strings the panel shows the dash, and History
      shows it too unless the lower-cased bias is one of them. */
  lemma PanelDefault(bias: string)
    requires bias != "bullish" && bias != "bearish"
    ensures PanelCase(bias) == Minus
    ensures History.GetBiasIcon(bias) == Minus <==> Lower(bias) != "bullish" && Lower(bias) != "bearish"
  {
  }

  /** On text with no capital letter the two agree. */
  lemma AgreeOnLowercase(bias: string)
    requires forall i :: 0 <= i < |bias| ==> !('A' <= bias[i] <= 'Z')
    ensures PanelCase(bias) == History.GetBiasIcon(bias)
  {
    LowerFixedPoint(bias);
    PanelAgreesWithHistory(bias);
  }

  /** 'Bullish' is rising on the History page and a dash in the results panel. */
  lemma CapitalisedBullish()
    ensures History.GetBiasIcon("Bullish") == TrendingUp
    ensures PanelCase("Bullish") == Minus
  {
    var b := "Bullish";
    assert Lower(b) == "bullish" by {
      assert Lower(b)[0] == LowerChar('B');
    }
  }

  /** The image export and the History page classify every bias alike. */
  lemma ExportAgreesWithHistory(bias: string)
    ensures Export.BiasIcon(bias) == Export.ChartUp <==> History.GetBiasIcon(bias) == TrendingUp
    ensures Export.BiasIcon(bias) == Export.ChartDown <==> History.GetBiasIcon(bias) == TrendingDown
    ensures Export.BiasIcon(bias) == Export.Dash <==> History.GetBiasIcon(bias) == Minus
  {
    Export.BiasIconCases(bias);
  }

  lemma LowerOfLowercase(s: string)
    requires forall i :: 0 <= i < |s| ==> 'a' <= s[i] <= 'z'
    ensures Lower(s) == s
  {
    LowerFixedPoint(s);
  }
}
