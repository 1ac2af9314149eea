/**
 * The user-interface values of src/menu.rs: the width of the life bar, the
 * life-bar and score-text updates as functions of what the systems read,
 * and the entities the menu creates at startup.
 */
module Menu {
  import opened Components
  import Decimal

  /** The sprite of a UI bar; only its custom size is modelled. */
  datatype Sprite = Sprite(customSize: Option<Vec2>)

  /** One section of a text; only its string value is modelled. */
  datatype TextSection = TextSection(value: string)

  datatype Text = Text(sections: seq<TextSection>)

  /** The height of a life bar. */
  const BAR_HEIGHT: real := 25.0

  /** `life_width`: 20 pixels per point of life. */
  function LifeWidth(life: Life): (w: real)
    ensures w >= 0.0
    ensures w == 0.0 <==> life.value == 0
    ensures w / 20.0 == life.value as real
  {
    20.0 * life.value as real
  }

  /** More life never gives a narrower bar, and different lives give different widths. */
  lemma LifeWidthMonotone(a: Life, b: Life)
    ensures a.value <= b.value <==> LifeWidth(a) <= LifeWidth(b)
    ensures LifeWidth(a) == LifeWidth(b) ==> a == b
  {
  }

  /** The life bar created at startup and the max-life bar: 100 by 25. */
  function StartupBar(): Sprite {
    Sprite(Some(Vec2(100.0, BAR_HEIGHT)))
  }

  /** The score text created at startup: a "Score: " label and an empty value section. */
  function StartupScoreText(): Text {
    Text([TextSection("Score: "), TextSection("")])
  }

  /**
   * The life bars after `player_life_system`, given the lives of the entities
   * tagged Player. With exactly one player the single life bar gets the width
   * of its life; otherwise nothing changes.
   */
  function LifeBarsAfter(playerLives: seq<Life>, bars: seq<Sprite>): (r: seq<Sprite>)
    requires |playerLives| == 1 ==> |bars| == 1
    ensures |r| == |bars|
  {
    if |playerLives| == 1 then [bars[0].(customSize := Some(Vec2(LifeWidth(playerLives[0]), BAR_HEIGHT)))]
    else bars
  }

  /** With one player the bar is 20 x life wide and 25 high; without a single player it is left as it was. */
  lemma LifeBarShowsLife(playerLives: seq<Life>, bars: seq<Sprite>)
    requires |playerLives| == 1 ==> |bars| == 1
    ensures |playerLives| == 1 ==>
      LifeBarsAfter(playerLives, bars)[0].customSize == Some(Vec2(20.0 * playerLives[0].value as real, 25.0))
    ensures |playerLives| != 1 ==> LifeBarsAfter(playerLives, bars) == bars
  {
  }

  /** Writing the life bar a second time changes nothing. */
  lemma LifeBarsIdempotent(playerLives: seq<Life>, bars: seq<Sprite>)
    requires |playerLives| == 1 ==> |bars| == 1
    ensures LifeBarsAfter(playerLives, LifeBarsAfter(playerLives, bars)) == LifeBarsAfter(playerLives, bars)
  {
  }

  /**
   * The score texts after `player_score_system`: with exactly one score text,
   * its second section holds the decimal text of the score; otherwise
   * nothing changes.
   */
  function ScoreTextsAfter(score: nat, texts: seq<Text>): (r: seq<Text>)
    requires |texts| == 1 ==> |texts[0].sections| >= 2
    ensures |r| == |texts|
  {
    if |texts| == 1 then
      [texts[0].(sections := texts[0].sections[1 := TextSection(Decimal.Format(score))])]
    else texts
  }

  /**
   * After the score step the second section reads back as the score, and every
   * other section (the "Score: " label) is untouched.
   */
  lemma ScoreTextShowsScore(score: nat, texts: seq<Text>)
    requires |texts| == 1 && |texts[0].sections| >= 2
    ensures var t := ScoreTextsAfter(score, texts)[0];
      && |t.sections| == |texts[0].sections|
      && Decimal.IsCanonical(t.sections[1].value)
      && Decimal.Value(t.sections[1].value) == score
      && forall i :: 0 <= i < |t.sections| && i != 1 ==> t.sections[i] == texts[0].sections[i]
  {
    Decimal.ValueOfFormat(score);
  }

  /** Without exactly one score text the step does nothing; running it twice is running it once. */
  lemma ScoreTextsIdempotent(score: nat, texts: seq<Text>)
    requires |texts| == 1 ==> |texts[0].sections| >= 2
    ensures |texts| != 1 ==> ScoreTextsAfter(score, texts) == texts
    ensures ScoreTextsAfter(score, ScoreTextsAfter(score, texts)) == ScoreTextsAfter(score, texts)
  {
    if |texts| == 1 {
      var written := ScoreTextsAfter(score, texts)[0].sections;
      assert written[1 := TextSection(Decimal.Format(score))] == written;
    }
  }

  /** The whole score line the menu shows once synchronised: "Score: " followed by the digits. */
  lemma StartupScoreLine(score: nat)
    ensures var t := ScoreTextsAfter(score, [StartupScoreText()])[0];
      t.sections[0].value + t.sections[1].value == "Score: " + Decimal.Format(score)
  {
  }
}
