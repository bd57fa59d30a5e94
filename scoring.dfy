/** The deterministic half of the scoring agent
    (backend/internal/agents/scoring_agent.go): reading the model's JSON
    answer, recomputing the lead score from its seven dimension scores and
    its boost and penalty entries, clamping it to 0..100, and deriving the
    category from it. The language-model call and the prompt are not part of
    this model; the JSON decoder is a parameter. */
module Scoring {
  import opened Text
  import opened JsonText

  /** The seven `score` fields of the answer, in the rubric's order. */
  datatype Dimensions = Dimensions(
    perfil: int, comportamiento: int, capacidad: int, necesidad: int,
    experiencia: int, engagement: int, contexto: int)

  /** `ScoringResponse`: of each dimension only the score is read. */
  datatype ScoringResponse = ScoringResponse(
    dims: Dimensions, boosts: seq<String>, penalizaciones: seq<String>, totalScore: int,
    category: String, accionRecomendada: String, tiempoContacto: String, tipoSeguimiento: String,
    resumenEjecutivo: String)

  /** `models.ScoringData` */
  datatype ScoringData = ScoringData(
    totalScore: int, category: String, dimensionScores: map<String, int>, boosts: seq<String>,
    penalizaciones: seq<String>, accionRecomendada: String, tiempoContacto: String, tipoSeguimiento: String)

  const DimensionKeys: seq<String> := [
    "perfil_demografico", "comportamiento_digital", "capacidad_financiera", "necesidad_urgencia",
    "experiencia_previa", "engagement_actual", "contexto_compra"]

  const ParseFailure: String := "Error parseando respuesta del modelo"

  function DimensionValues(d: Dimensions): (v: seq<int>)
    ensures |v| == |DimensionKeys|
  {
    [d.perfil, d.comportamiento, d.capacidad, d.necesidad, d.experiencia, d.engagement, d.contexto]
  }

  /** The `dimensionScores` map: each rubric key bound to its dimension's score. */
  function DimensionMap(d: Dimensions): (m: map<String, int>)
    ensures m.Keys == set i | 0 <= i < |DimensionKeys| :: DimensionKeys[i]
    ensures forall i :: 0 <= i < |DimensionKeys| ==> DimensionKeys[i] in m && m[DimensionKeys[i]] == DimensionValues(d)[i]
  {
    map[DimensionKeys[0] := d.perfil, DimensionKeys[1] := d.comportamiento, DimensionKeys[2] := d.capacidad,
        DimensionKeys[3] := d.necesidad, DimensionKeys[4] := d.experiencia, DimensionKeys[5] := d.engagement,
        DimensionKeys[6] := d.contexto]
  }

  function Sum(xs: seq<int>): int {
    if |xs| == 0 then 0 else Sum(xs[..|xs| - 1]) + xs[|xs| - 1]
  }

  /** The points an entry carries: the integer `fmt.Sscanf` reads from the
      text after the entry's first `sign`, cut at the next `sign` and at the
      first space and trimmed; 0 when there is no `sign` or no number. */
  function Points(entry: String, sign: char): (p: int)
    ensures sign !in entry ==> p == 0
    ensures sign in entry && ScanInt(TrimSpace(UpToFirst(SecondField(entry, sign), ' '))).None? ==> p == 0
  {
    if sign !in entry then 0
    else
      match ScanInt(TrimSpace(UpToFirst(SecondField(entry, sign), ' ')))
      case Some(v) => v
      case None => 0
  }

  /** The points of all boosts, each read after a `+`. */
  function BoostTotal(boosts: seq<String>): int {
    if |boosts| == 0 then 0 else BoostTotal(boosts[..|boosts| - 1]) + Points(boosts[|boosts| - 1], '+')
  }

  /** The points of all penalties, each read after a `-`. */
  function PenaltyTotal(penalties: seq<String>): int {
    if |penalties| == 0 then 0 else PenaltyTotal(penalties[..|penalties| - 1]) + Points(penalties[|penalties| - 1], '-')
  }

  /** The recomputed score before clamping. */
  function RawScore(r: ScoringResponse): int {
    Sum(DimensionValues(r.dims)) + BoostTotal(r.boosts) - PenaltyTotal(r.penalizaciones)
  }

  /** The score limited to the range 0..100. */
  function Clamp(x: int): (r: int)
    ensures 0 <= r <= 100
    ensures 0 <= x <= 100 ==> r == x
    ensures x > 100 ==> r == 100
    ensures x < 0 ==> r == 0
  {
    if x > 100 then 100 else if x < 0 then 0 else x
  }

  /** The category of a score: 85 and up hot, 65 and up warm, 45 and up cold,
      anything lower discarded. */
  function CategoryFor(score: int): (c: String)
    ensures c == "hot" <==> score >= 85
    ensures c == "warm" <==> 65 <= score < 85
    ensures c == "cold" <==> 45 <= score < 65
    ensures c == "discarded" <==> score < 45
  {
    if score >= 85 then "hot" else if score >= 65 then "warm" else if score >= 45 then "cold" else "discarded"
  }

  /** `defaultScoring`: score 0, discarded, and the reason as the only penalty. */
  function DefaultScoring(reason: String): (d: ScoringData)
    ensures d.totalScore == 0 && d.category == "discarded" && d.category == CategoryFor(d.totalScore)
    ensures d.dimensionScores == map[] && d.boosts == []
    ensures d.penalizaciones == ["Error en scoring: " + reason]
    ensures d.accionRecomendada == "Revisar manualmente - error en análisis automático"
    ensures d.tiempoContacto == "N/A" && d.tipoSeguimiento == "Manual"
  {
    ScoringData(0, "discarded", map[], [], ["Error en scoring: " + reason],
                "Revisar manualmente - error en análisis automático", "N/A", "Manual")
  }

  /** The data built from a decoded answer: the model's own total and
      category are replaced by the recomputed, clamped score and its
      category; everything else is copied. */
  function Scored(r: ScoringResponse): (d: ScoringData)
    ensures d.totalScore == Clamp(RawScore(r)) && d.category == CategoryFor(d.totalScore)
    ensures d.dimensionScores == DimensionMap(r.dims)
    ensures d.boosts == r.boosts && d.penalizaciones == r.penalizaciones
    ensures d.accionRecomendada == r.accionRecomendada && d.tiempoContacto == r.tiempoContacto
    ensures d.tipoSeguimiento == r.tipoSeguimiento
  {
    var score := Clamp(RawScore(r));
    ScoringData(score, CategoryFor(score), DimensionMap(r.dims), r.boosts, r.penalizaciones,
                r.accionRecomendada, r.tiempoContacto, r.tipoSeguimiento)
  }

  /** What `parseScoring` returns for an answer, with the brace span read the
      corrected way (see `JsonText.JsonSpan`). */
  function ScoringOf(responseText: String, decode: String -> Decoded<ScoringResponse>): ScoringData {
    var span := JsonSpan(TrimSpace(responseText));
    if span.None? then DefaultScoring(ParseFailure)
    else
      match decode(span.value)
      case DecodeError(e) => DefaultScoring("Error JSON: " + e)
      case Decoded(r) => Scored(r)
  }

  /** `parseScoring`: the score is summed over the dimension map, then each
      boost is added and each penalty subtracted, and the total is clamped. */
  method ParseScoring(responseText: String, decode: String -> Decoded<ScoringResponse>) returns (data: ScoringData)
    ensures data == ScoringOf(responseText, decode)
  {
    var trimmed := TrimSpace(responseText);
    var span := JsonSpan(trimmed);
    if span.None? {
      return DefaultScoring(ParseFailure);
    }
    var decoded := decode(span.value);
    if decoded.DecodeError? {
      return DefaultScoring("Error JSON: " + decoded.error);
    }
    var scoring := decoded.value;
    var dimensionScores := DimensionMap(scoring.dims);
    var calculated := SumDimensions(dimensionScores, scoring.dims);
    calculated := AddBoosts(calculated, scoring.boosts);
    calculated := SubtractPenalties(calculated, scoring.penalizaciones);
    var finalScore := calculated;
    if finalScore > 100 {
      finalScore := 100;
    }
    if finalScore < 0 {
      finalScore := 0;
    }
    var category := scoring.category;
    if finalScore >= 85 {
      category := "hot";
    } else if finalScore >= 65 {
      category := "warm";
    } else if finalScore >= 45 {
      category := "cold";
    } else {
      category := "discarded";
    }
    data := ScoringData(finalScore, category, dimensionScores, scoring.boosts, scoring.penalizaciones,
                        scoring.accionRecomendada, scoring.tiempoContacto, scoring.tipoSeguimiento);
  }

  /** The loop over the dimension map, visiting the rubric keys in order
      (the sum does not depend on Go's map order). */
  method SumDimensions(dimensionScores: map<String, int>, dims: Dimensions) returns (total: int)
    requires dimensionScores == DimensionMap(dims)
    ensures total == Sum(DimensionValues(dims))
  {
    var values := DimensionValues(dims);
    total := 0;
    var i := 0;
    while i < |DimensionKeys|
      invariant 0 <= i <= |DimensionKeys|
      invariant total == Sum(values[..i])
    {
      assert values[..i + 1][..i] == values[..i];
      total := total + dimensionScores[DimensionKeys[i]];
      i := i + 1;
    }
    assert values[..|values|] == values;
  }

  /** The boost loop. */
  method AddBoosts(start: int, boosts: seq<String>) returns (total: int)
    ensures total == start + BoostTotal(boosts)
  {
    total := start;
    var i := 0;
    while i < |boosts|
      invariant 0 <= i <= |boosts|
      invariant total == start + BoostTotal(boosts[..i])
    {
      assert boosts[..i + 1][..i] == boosts[..i];
      var boost := boosts[i];
      if '+' in boost {
        var pointsStr := TrimSpace(UpToFirst(SecondField(boost, '+'), ' '));
        var points := ScanInt(pointsStr);
        if points.Some? {
          total := total + points.value;
        }
      }
      i := i + 1;
    }
    assert boosts[..|boosts|] == boosts;
  }

  /** The penalty loop. */
  method SubtractPenalties(start: int, penalties: seq<String>) returns (total: int)
    ensures total == start - PenaltyTotal(penalties)
  {
    total := start;
    var i := 0;
    while i < |penalties|
      invariant 0 <= i <= |penalties|
      invariant total == start - PenaltyTotal(penalties[..i])
    {
      assert penalties[..i + 1][..i] == penalties[..i];
      var penalty := penalties[i];
      if '-' in penalty {
        var pointsStr := TrimSpace(UpToFirst(SecondField(penalty, '-'), ' '));
        var points := ScanInt(pointsStr);
        if points.Some? {
          total := total - points.value;
        }
      }
      i := i + 1;
    }
    assert penalties[..|penalties|] == penalties;
  }

  /** Whatever the answer, the score lies in 0..100 and the category is the
      one its score calls for. */
  lemma ScoreAndCategoryConsistent(responseText: String, decode: String -> Decoded<ScoringResponse>)
    ensures 0 <= ScoringOf(responseText, decode).totalScore <= 100
    ensures ScoringOf(responseText, decode).category == CategoryFor(ScoringOf(responseText, decode).totalScore)
  {
  }

  /** An answer without an opening or a closing brace yields the default. */
  lemma NoBracesGivesDefault(responseText: String, decode: String -> Decoded<ScoringResponse>)
    requires '{' !in TrimSpace(responseText) || '}' !in TrimSpace(responseText)
    ensures ScoringOf(responseText, decode) == DefaultScoring(ParseFailure)
    ensures |ScoringOf(responseText, decode).penalizaciones| == 1
  {
  }

  /** The model's own `totalScore` and `category` have no effect. */
  lemma ModelTotalIgnored(r: ScoringResponse, total: int, category: String)
    ensures Scored(r.(totalScore := total, category := category)) == Scored(r)
  {
  }

  /** An entry adds the number written right after its sign, up to a space:
      `"Referido por cliente: +7 puntos"` carries 7. */
  lemma {:induction false} SignedNumberCounts(name: String, sign: char, n: nat, rest: String)
    requires sign !in name && sign !in rest && !IsDigit(sign) && !IsSpace(sign)
    requires rest == [] || rest[0] == ' '
    requires n <= Int64Max
    ensures Points(name + [sign] + (NatToString(n) + rest), sign) == n
  {
    var digits := NatToString(n);
    var e := name + [sign] + (digits + rest);
    assert sign in e && SecondField(e, sign) == digits + rest by {
      AfterFirstSign(name, sign, digits + rest);
      NoSignInDigits(digits, rest, sign);
    }
    assert UpToFirst(digits + rest, ' ') == digits by {
      CutAtSpace(digits, rest);
    }
    assert TrimSpace(digits) == digits by {
      assert IsDigit(digits[0]) && IsDigit(digits[|digits| - 1]);
      TrimSpaceOfTrimmed(digits);
    }
    assert ScanInt(digits) == Some(n) by {
      ScanNatString(n);
    }
  }

  lemma NoSignInDigits(digits: String, rest: String, sign: char)
    requires forall i :: 0 <= i < |digits| ==> IsDigit(digits[i])
    requires sign !in rest && !IsDigit(sign)
    ensures UpToFirst(digits + rest, sign) == digits + rest
  {
    assert sign !in digits + rest;
  }

  lemma CutAtSpace(digits: String, rest: String)
    requires forall i :: 0 <= i < |digits| ==> IsDigit(digits[i])
    requires rest == [] || rest[0] == ' '
    ensures UpToFirst(digits + rest, ' ') == digits
  {
    if rest != [] {
      assert (digits + rest)[|digits|] == ' ' && (digits + rest)[..|digits|] == digits;
    }
  }

  /** `Sscanf` reads back what `%d` prints. */
  lemma ScanNatString(n: nat)
    requires n <= Int64Max
    ensures ScanInt(NatToString(n)) == Some(n)
  {
    AllDigitsLead(NatToString(n));
  }

  /** A name that itself holds the sign, followed by a letter, carries no
      points: in `"tire-patadas: -6"` the text read is `patadas:`. */
  lemma {:induction false} SignInNameCountsZero(name: String, sign: char, rest: String)
    requires sign !in name && |rest| > 0
    requires rest[0] != sign && !IsDigit(rest[0]) && !IsSpace(rest[0]) && rest[0] != '+' && rest[0] != '-'
    ensures Points(name + [sign] + rest, sign) == 0
  {
    AfterFirstSign(name, sign, rest);
    var field := UpToFirst(UpToFirst(rest, sign), ' ');
    assert |field| > 0 && field[0] == rest[0];
    TrimStartsWith(field);
  }

  /** What `Points` reads once the first sign is known to follow `name`. */
  lemma AfterFirstSign(name: String, sign: char, rest: String)
    requires sign !in name
    ensures sign in name + [sign] + rest
    ensures SecondField(name + [sign] + rest, sign) == UpToFirst(rest, sign)
  {
    var e := name + [sign] + rest;
    assert e[|name|] == sign && e[..|name|] == name;
    assert e[|name| + 1..] == rest;
  }

  /** Trimming keeps a first rune that is not white space. */
  lemma TrimStartsWith(s: String)
    requires |s| > 0 && !IsSpace(s[0])
    ensures |TrimSpace(s)| > 0 && TrimSpace(s)[0] == s[0]
  {
    TrimLeftFacts(s);
    TrimRightFacts(TrimLeft(s));
  }

  /** A string of digits is its own longest digit prefix. */
  lemma {:induction false} AllDigitsLead(s: String)
    requires forall i :: 0 <= i < |s| ==> IsDigit(s[i])
    ensures LeadingDigits(s) == s
  {
    if |s| > 0 {
      AllDigitsLead(s[1..]);
    }
  }

  // ----- The message shown for a score -----

  /** The emoji that opens the message: one per known category, and a chart
      for any other. */
  function CategoryEmoji(category: String): (e: String)
    ensures e == "🔥" <==> category == "hot"
    ensures e == "🌡️" <==> category == "warm"
    ensures e == "❄️" <==> category == "cold"
    ensures e == "📊" <==> category !in {"hot", "warm", "cold"}
  {
    if category == "hot" then "🔥"
    else if category == "warm" then "🌡️"
    else if category == "cold" then "❄️"
    else "📊"
  }

  const ScoreLabel: String := " **Lead Score: "
  const CategoryLabel: String := "/100** - Categoría: "
  const AccionLabel: String := "**Acción recomendada:** "
  const TiempoLabel: String := "**Tiempo de contacto:** "
  const TipoLabel: String := "**Tipo de seguimiento:** "
  const BoostsTitle: String := "\n✅ **Boosts aplicados:** "
  const PenaltiesTitle: String := "\n⚠️ **Penalizaciones:** "

  /** The first line and the blank line after it. */
  function Header(d: ScoringData): String {
    CategoryEmoji(d.category) + (ScoreLabel + IntToString(d.totalScore) + CategoryLabel + d.category + "\n\n")
  }

  /** The header and the three detail lines. */
  function MessageHead(d: ScoringData): String {
    Header(d) + (AccionLabel + d.accionRecomendada + "\n") + (TiempoLabel + d.tiempoContacto + "\n") +
    (TipoLabel + d.tipoSeguimiento + "\n")
  }

  /** A titled, comma-separated list, or nothing when the list is empty. */
  function Section(title: String, items: seq<String>): (r: String)
    ensures |items| == 0 ==> r == []
    ensures |items| > 0 ==> title <= r && r[|title|..] == Join(items, ", ")
  {
    if |items| == 0 then [] else title + Join(items, ", ")
  }

  /** The text of `generateScoringMessage`. */
  function ScoringMessage(d: ScoringData): String {
    MessageHead(d) + Section(BoostsTitle, d.boosts) + Section(PenaltiesTitle, d.penalizaciones)
  }

  /** `generateScoringMessage`: the header and details, then the boosts and
      then the penalties, each only when there are some. */
  method GenerateScoringMessage(d: ScoringData) returns (msg: String)
    ensures msg == ScoringMessage(d)
  {
    var emoji: String;
    match d.category {
      case "hot" => emoji := "🔥";
      case "warm" => emoji := "🌡️";
      case "cold" => emoji := "❄️";
      case _ => emoji := "📊";
    }
    msg := emoji + (ScoreLabel + IntToString(d.totalScore) + CategoryLabel + d.category + "\n\n");
    msg := msg + (AccionLabel + d.accionRecomendada + "\n");
    msg := msg + (TiempoLabel + d.tiempoContacto + "\n");
    msg := msg + (TipoLabel + d.tipoSeguimiento + "\n");
    var head := msg;
    if |d.boosts| > 0 {
      msg := msg + (BoostsTitle + Join(d.boosts, ", "));
    }
    var withBoosts := msg;
    if |d.penalizaciones| > 0 {
      msg := msg + (PenaltiesTitle + Join(d.penalizaciones, ", "));
    }
    assert head == MessageHead(d);
    assert withBoosts == head + Section(BoostsTitle, d.boosts);
  }

  lemma PrefixOfConcat(a: String, b: String, c: String)
    requires a <= b
    ensures a <= b + c
  {
    assert (b + c)[..|b|] == b;
  }

  /** The message opens with its category's emoji, then the header and the
      details, whatever sections follow. */
  lemma MessageOpensWithEmoji(d: ScoringData)
    ensures CategoryEmoji(d.category) <= ScoringMessage(d)
    ensures Header(d) <= ScoringMessage(d)
  {
    var h := Header(d);
    var e := CategoryEmoji(d.category);
    PrefixOfConcat(e, e, h[|e|..]);
    var x := Header(d) + (AccionLabel + d.accionRecomendada + "\n");
    PrefixOfConcat(h, h, AccionLabel + d.accionRecomendada + "\n");
    var y := x + (TiempoLabel + d.tiempoContacto + "\n");
    PrefixOfConcat(h, x, TiempoLabel + d.tiempoContacto + "\n");
    PrefixOfConcat(h, y, TipoLabel + d.tipoSeguimiento + "\n");
    var m := MessageHead(d);
    PrefixOfConcat(h, m, Section(BoostsTitle, d.boosts));
    PrefixOfConcat(h, m + Section(BoostsTitle, d.boosts), Section(PenaltiesTitle, d.penalizaciones));
  }

  /** The fallback data's message lists its single penalty and no boosts. */
  lemma DefaultMessageShowsReason(reason: String)
    ensures ScoringMessage(DefaultScoring(reason)) ==
      MessageHead(DefaultScoring(reason)) + PenaltiesTitle + "Error en scoring: " + reason
  {
    var d := DefaultScoring(reason);
    assert Join(d.penalizaciones, ", ") == "Error en scoring: " + reason;
  }
}
