/** The display rules of a flight offer card (components/FlightCard.tsx):
    recommendation badge and label, stop count, airline initials and the
    flight duration. */
module FlightCard {
  import opened Text
  import opened Types

  /** getBadgeStyle: three highlighted recommendation types, everything else plain.
      Only the highlighted ones carry a translucent ring colour ("/30"). */
  function BadgeStyle(kind: RecommendationType): (style: string)
    ensures kind in {Value, Cheapest, Fastest} <==> |style| >= 3 && style[|style| - 3..] == "/30"
  {
    match kind
    case Value => "bg-green-100 text-green-700 border-green-200 ring-green-500/30"
    case Cheapest => "bg-blue-100 text-blue-700 border-blue-200 ring-blue-500/30"
    case Fastest => "bg-amber-100 text-amber-700 border-amber-200 ring-amber-500/30"
    case _ => "bg-slate-100 text-slate-600 border-slate-200"
  }

  /** PREMIUM and NONE share the default style; the other three each have their own. */
  lemma BadgeStyleCases()
    ensures BadgeStyle(Premium) == BadgeStyle(NoRecommendation)
    ensures BadgeStyle(Value) != BadgeStyle(Cheapest) && BadgeStyle(Value) != BadgeStyle(Fastest)
    ensures BadgeStyle(Cheapest) != BadgeStyle(Fastest)
    ensures forall k :: k in {Value, Cheapest, Fastest} ==> BadgeStyle(k) != BadgeStyle(NoRecommendation)
  {
  }

  const RankPrefix := "Opção #"

  /** getLabel: fixed wording for VALUE, CHEAPEST and FASTEST, otherwise the ranking. */
  function Label(kind: RecommendationType, ranking: int): (r: string)
    ensures kind in {Premium, NoRecommendation} ==>
      RankPrefix <= r && r[|RankPrefix|..] == IntToString(ranking)
    ensures kind in {Value, Cheapest, Fastest} ==> !(RankPrefix <= r)
  {
    match kind
    case Value =>
      var r := "Melhor Custo-Benefício";
      assert r[0] != RankPrefix[0];
      r
    case Cheapest =>
      var r := "Oportunidade de Preço";
      assert r[2] != RankPrefix[2];
      r
    case Fastest =>
      var r := "Conveniência Máxima";
      assert r[0] != RankPrefix[0];
      r
    case _ => RankPrefix + IntToString(ranking)
  }

  /** The labels of the highlighted kinds are fixed: the ranking does not show. */
  lemma HighlightedLabelFixed(kind: RecommendationType, r1: int, r2: int)
    requires kind in {Value, Cheapest, Fastest}
    ensures Label(kind, r1) == Label(kind, r2)
  {
  }

  /** The label tells the highlighted kinds apart from each other and from every
      ranking, and a ranking label gives back its ranking. */
  lemma LabelDistinguishes(k1: RecommendationType, r1: int, k2: RecommendationType, r2: int)
    requires Label(k1, r1) == Label(k2, r2)
    ensures k1 in {Value, Cheapest, Fastest} || k2 in {Value, Cheapest, Fastest} ==> k1 == k2
    ensures k1 in {Premium, NoRecommendation} ==> k2 in {Premium, NoRecommendation} && r1 == r2
  {
    if k1 in {Premium, NoRecommendation} && k2 in {Premium, NoRecommendation} {
      IntToStringInjective(r1, r2);
    }
  }

  /** JavaScript's `%`: the remainder takes the sign of the dividend. */
  function JsRemainder(a: int, b: int): (r: int)
    requires b > 0
    ensures a >= 0 ==> 0 <= r < b
    ensures a < 0 ==> -b < r <= 0
    ensures a == b * (if a >= 0 then a / b else -((-a) / b)) + r
  {
    if a >= 0 then a % b else -((-a) % b)
  }

  /** formatDuration's numbers: `Math.floor(mins / 60)` and `mins % 60`. */
  function DurationParts(mins: int): (hm: (int, int))
    ensures hm.0 * 60 <= mins < hm.0 * 60 + 60
    ensures mins >= 0 ==> 0 <= hm.1 < 60 && hm.0 * 60 + hm.1 == mins
    ensures mins < 0 ==> -60 < hm.1 <= 0 && mins == -((-mins) / 60) * 60 + hm.1
  {
    (mins / 60, JsRemainder(mins, 60))
  }

  /** Floor division paired with a truncating remainder: below zero the two do not recombine. */
  lemma DurationPartsNegative()
    ensures DurationParts(-90) == (-2, -30)
    ensures -2 * 60 + -30 != -90
  {
  }

  /** `${h}h ${m}m`: under an hour the hours read 0, and whole hours read 0 minutes. */
  function FormatDuration(mins: int): (r: string)
    ensures 0 <= mins < 60 ==> r == "0h " + IntToString(mins) + "m"
    ensures mins >= 0 && mins % 60 == 0 ==> r == IntToString(mins / 60) + "h 0m"
  {
    var hm := DurationParts(mins);
    IntToString(hm.0) + "h " + IntToString(hm.1) + "m"
  }

  /** `formatDuration(flight.durationMinutes || 0)`: a missing duration shows as 0h 0m. */
  function DurationText(durationMinutes: Option<int>): (r: string)
    ensures durationMinutes.None? ==> r == "0h 0m"
    ensures durationMinutes.Some? ==> r == FormatDuration(durationMinutes.value)
  {
    FormatDuration(if durationMinutes.Some? then durationMinutes.value else 0)
  }

  /** For durations of zero minutes or more, the text gives back the minutes. */
  lemma FormatDurationInjective(a: int, b: int)
    requires a >= 0 && b >= 0
    requires FormatDuration(a) == FormatDuration(b)
    ensures a == b
  {
    var (ha, ma) := DurationParts(a);
    var (hb, mb) := DurationParts(b);
    HoursMinutesTextInjective(ha, ma, hb, mb);
  }

  /** `${h}h ${m}m` with h at least 0 gives back both numbers. */
  lemma HoursMinutesTextInjective(ha: int, ma: int, hb: int, mb: int)
    requires ha >= 0 && hb >= 0
    requires IntToString(ha) + "h " + IntToString(ma) + "m" == IntToString(hb) + "h " + IntToString(mb) + "m"
    ensures ha == hb && ma == mb
  {
    var sa, sb := IntToString(ha), IntToString(hb);
    var ya, yb := IntToString(ma), IntToString(mb);
    var ta, tb := "h " + ya + "m", "h " + yb + "m";
    assert sa + "h " + ya + "m" == sa + ta;
    assert sb + "h " + yb + "m" == sb + tb;
    DigitsExclude(sa, 'h');
    DigitsExclude(sb, 'h');
    SplitAtFirst(sa, ta, sb, tb, 'h');
    IntToStringInjective(ha, hb);
    assert ya == ta[2..|ta| - 1];
    assert yb == tb[2..|tb| - 1];
    IntToStringInjective(ma, mb);
  }

  /** `stops === 0 ? 'Conexão Direta' : `${stops || 0} ${stops === 1 ? 'Escala' : 'Escalas'}`` */
  function StopsText(stops: Option<int>): (r: string)
    ensures stops == Some(0) ==> r == "Conexão Direta"
    ensures stops == Some(1) ==> r == "1 Escala"
    ensures stops.None? ==> r == "0 Escalas"
    ensures stops.Some? && stops.value !in {0, 1} ==> r == IntToString(stops.value) + " Escalas"
  {
    if stops == Some(0) then "Conexão Direta"
    else
      var n := if stops.Some? then stops.value else 0;
      IntToString(n) + " " + (if stops == Some(1) then "Escala" else "Escalas")
  }

  /** The text of a stop count other than 0: the count's digits come first,
      and it never starts with the 'C' of the direct-flight text. */
  lemma StopsTextShape(n: int)
    ensures n != 0 ==> var t := StopsText(Some(n));
      |t| == |IntToString(n)| + (if n == 1 then 7 else 8) &&
      t[..|IntToString(n)|] == IntToString(n) && t[0] != 'C'
  {
    if n != 0 {
      var t := StopsText(Some(n));
      assert t[..|IntToString(n)|] == IntToString(n);
      assert t[0] == IntToString(n)[0];
      assert IntToString(n)[0] == '-' || IsDigit(IntToString(n)[0]);
    }
  }

  /** Two given stop counts never share a text. */
  lemma StopsTextInjective(a: int, b: int)
    requires StopsText(Some(a)) == StopsText(Some(b))
    ensures a == b
  {
    StopsTextShape(a);
    StopsTextShape(b);
    assert "Conexão Direta"[0] == 'C';
    if IntToString(a) == IntToString(b) {
      IntToStringInjective(a, b);
    }
  }

  /** `airline?.substring(0, 2).toUpperCase() || 'FL'` */
  function AirlineBadge(airline: Option<string>): (r: string)
    ensures airline.None? || airline == Some("") ==> r == "FL"
    ensures airline.Some? && airline.value != "" ==>
      |r| == (if |airline.value| < 2 then |airline.value| else 2) &&
      forall i :: 0 <= i < |r| ==> r[i] == UpperChar(airline.value[i])
  {
    if airline.None? then "FL"
    else
      var a := airline.value;
      var initials := ToUpper(a[..if |a| < 2 then |a| else 2]);
      if initials == "" then "FL" else initials
  }
}
