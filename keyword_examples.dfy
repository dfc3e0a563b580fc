/** The demonstration queries of the keyword router, worked through its
    argument extraction, and the message that makes it raise. */
module KeywordExamples {
  import opened PyText
  import opened ArithPattern
  import opened Registry
  import opened KeywordRouter

  /** The first `" in "` of the weather demonstration query is the one before `"Tokyo"`. */
  lemma WeatherDemoSeparator()
    ensures FirstOccursAt("What's the weather like in Tokyo?", InWord, 23)
  {
    var q := "What's the weather like" + " in " + "Tokyo?";
    assert q == "What's the weather like in Tokyo?";
    assert OccursAt(q, " in ", 23);
    forall j | 0 <= j < 23
      ensures !OccursAt(q, " in ", j)
    {
      assert q[j..j + 4][1] == q[j + 1];
      if j + 1 < 20 {
        assert q[j + 1] in q[..20];
      } else if j == 19 {
        assert q[j..j + 4][0] == q[19] == 'l';
      } else {
        assert q[j + 1] in q[21..24];
      }
    }
  }

  /** Trimming drops the question mark. */
  lemma TrimDropsQuestionMark()
    ensures TrimArgument("Tokyo?") == "Tokyo"
  {
    var rest := "Tokyo?";
    assert rest[0] == 'T' && rest[4] == 'o' && rest[5] == '?';
    LStripExact(rest, 0, Space);
    assert rest[0..] == rest;
    RStripExact(rest, |rest|, Space);
    assert rest[..|rest|] == rest;
    RStripExact(rest, 5, OneOf(ArgumentTail));
  }

  /** `"What's the weather like in Tokyo?"` asks for the weather in `"Tokyo"`. */
  lemma WeatherDemo()
    ensures WeatherArgument("What's the weather like in Tokyo?") == Returned("Tokyo")
  {
    var q := "What's the weather like in Tokyo?";
    WeatherDemoSeparator();
    assert q[27..] == "Tokyo?";
    TrimDropsQuestionMark();
  }

  /** `"Calculate 5 * 3"` asks to evaluate `"5 * 3"`. */
  lemma CalculatorDemo()
    ensures CalculatorArgument("Calculate 5 * 3") == Returned("5 * 3")
  {
    var q := "Calculate 5 * 3";
    LowerKeepsOccurrence(q, "5 * 3", 10);
    var l := Lower(q);
    assert l[10..15] == "5 * 3";
    assert ShapedAt(l[10..15], 1, 2, 4);
    LowerKeepsDigits(q);
    forall k | 0 <= k < 10
      ensures !IsDigit(l[k])
    {
      assert q[k] in q[..10];
    }
    NoMatchBeforeDigit(l, 10);
    assert LeftmostLongest(l, 10, 15);
  }

  /** Without an arithmetic expression, the calculator gets the whole message,
      in its original case. */
  lemma CalculatorFallbackKeepsCase()
    ensures CalculatorArgument("What is love?") == Returned("What is love?")
  {
    var q := "What is love?";
    var l := Lower(q);
    LowerKeepsDigits(q);
    forall k | 0 <= k < |l|
      ensures !IsDigit(l[k])
    {
      assert q[k] in q;
    }
    NoMatchBeforeDigit(l, |l|);
  }

  /** The first `"about"` of the news demonstration query is at index 13. */
  lemma NewsDemoSeparator()
    ensures FirstOccursAt("Find me news about machine learning", AboutWord, 13)
  {
    var q := "Find me news " + "about" + " machine learning";
    assert q == "Find me news about machine learning";
    assert OccursAt(q, "about", 13);
    forall j | 0 <= j < 13
      ensures !OccursAt(q, "about", j)
    {
      assert q[j] in q[..13];
      assert q[j..j + 5][0] == q[j];
    }
  }

  /** Trimming drops the space left by the split. */
  lemma TrimDropsLeadingSpace()
    ensures TrimArgument(" machine learning") == "machine learning"
  {
    var rest := " machine learning";
    assert IsSpace(rest[0]) && !IsSpace(rest[1]);
    LStripExact(rest, 1, Space);
    var w := rest[1..];
    assert !IsSpace(w[|w| - 1]) && w[|w| - 1] !in ArgumentTail;
    RStripExact(w, |w|, Space);
    RStripExact(w, |w|, OneOf(ArgumentTail));
  }

  /** `"Find me news about machine learning"` asks for news on `"machine learning"`. */
  lemma NewsDemo()
    ensures NewsArgument("Find me news about machine learning") == Returned("machine learning")
  {
    var q := "Find me news about machine learning";
    NewsDemoSeparator();
    assert q[18..] == " machine learning";
    TrimDropsLeadingSpace();
  }

  /** `"Weather IN Paris"` is routed to the weather tool when it is registered. */
  lemma CaseMismatchRoutesToWeather(toolMap: map<string, Tool>)
    requires WeatherSearch in toolMap
    ensures RouteQuery(toolMap, "Weather IN Paris") == WeatherSearch
  {
    var q := "Weather IN Paris";
    assert Lower(q)[0..7] == "weather";
    assert OccursAt(Lower(q), "weather", 0);
  }

  /** Only the lower-cased `"Weather IN Paris"` has `" in "`, so splitting the
      original message raises `IndexError`. */
  lemma CaseMismatchArgumentRaises()
    ensures WeatherArgument("Weather IN Paris") == Raised(IndexError)
  {
    var q := "Weather IN Paris";
    assert Lower(q)[7..11] == " in ";
    assert OccursAt(Lower(q), " in ", 7);
    forall k
      ensures !OccursAt(q, " in ", k)
    {
      if 0 <= k && k + 4 <= |q| {
        assert q[k..k + 4][2] == q[k + 2];
        assert q[k + 2] in q;
      }
    }
  }

  /** With the weather tool registered, `"Weather IN Paris"` makes the reply
      raise `IndexError`, which escapes `process_message`. */
  lemma CaseMismatchRaises(llmPresent: bool, toolMap: map<string, Tool>)
    requires WeatherSearch in toolMap
    ensures Respond(llmPresent, toolMap, "Weather IN Paris") == Raised(IndexError)
  {
    CaseMismatchRoutesToWeather(toolMap);
    CaseMismatchArgumentRaises();
  }
}
