/** The market view (MarketSimulation.tsx): your rank, the share pie, the
    competitor strength label and the event list. */
module MarketSimulation {
  import opened Base
  import opened Entities
  import opened App

  /** The rivals with a strictly larger share than `share`. */
  function Ahead(competitors: seq<Competitor>, share: real): (r: seq<Competitor>)
    ensures |r| <= |competitors|
  {
    Filter(competitors, (c: Competitor) => c.marketShare > share)
  }

  /** `yourRank` (MarketSimulation.tsx:65). */
  function Rank(competitors: seq<Competitor>, share: real): (r: nat)
    ensures 1 <= r <= |competitors| + 1
  {
    |Ahead(competitors, share)| + 1
  }

  /** First place exactly when no rival has a larger share; last, behind
      every rival, exactly when all of them do. */
  lemma RankExtremes(competitors: seq<Competitor>, share: real)
    ensures Rank(competitors, share) == 1 <==> forall i :: 0 <= i < |competitors| ==> competitors[i].marketShare <= share
    ensures Rank(competitors, share) == |competitors| + 1 <==>
      forall i :: 0 <= i < |competitors| ==> competitors[i].marketShare > share
  {
    var p := (c: Competitor) => c.marketShare > share;
    FilterMembers(competitors, p);
    if forall i :: 0 <= i < |competitors| ==> competitors[i].marketShare <= share {
      FilterNone(competitors, p);
    }
    if forall i :: 0 <= i < |competitors| ==> competitors[i].marketShare > share {
      FilterAll(competitors, p);
    }
    if Rank(competitors, share) == |competitors| + 1 {
      AheadFull(competitors, share);
    }
  }

  /** A filter that keeps every element kept all of them. */
  lemma {:induction false} AheadFull(competitors: seq<Competitor>, share: real)
    requires |Ahead(competitors, share)| == |competitors|
    ensures forall i :: 0 <= i < |competitors| ==> competitors[i].marketShare > share
    decreases |competitors|
  {
    if competitors != [] {
      var init := competitors[..|competitors| - 1];
      var last := competitors[|competitors| - 1];
      assert competitors == init + [last];
      FilterAppend(init, last, (c: Competitor) => c.marketShare > share);
      AheadFull(init, share);
      forall i | 0 <= i < |competitors| ensures competitors[i].marketShare > share {
        if i < |init| {
          assert competitors[i] == init[i];
        }
      }
    }
  }

  /** A larger share never ranks worse. */
  lemma {:induction false} RankMonotone(competitors: seq<Competitor>, share: real, more: real)
    requires share <= more
    ensures Rank(competitors, more) <= Rank(competitors, share)
    decreases |competitors|
  {
    if competitors != [] {
      var init := competitors[..|competitors| - 1];
      var last := competitors[|competitors| - 1];
      assert competitors == init + [last];
      RankMonotone(init, share, more);
      FilterAppend(init, last, (c: Competitor) => c.marketShare > share);
      FilterAppend(init, last, (c: Competitor) => c.marketShare > more);
    }
  }

  /** A new project, at its starting 5 percent, ranks last behind all five seeded rivals. */
  lemma SetupRanksLast()
    ensures Rank(InitialCompetitors(), 5.0) == 6
  {
    var cs := InitialCompetitors();
    assert forall i :: 0 <= i < |cs| ==> cs[i] == InitialCompetitor(i);
    RankExtremes(cs, 5.0);
  }

  // ---- the share pie (MarketSimulation.tsx:33, 45-52) ----

  datatype Slice = Slice(name: string, value: real, color: string)

  const PaletteSize: nat := 6

  /** `COLORS[i]`, and the fallback grey past its end. */
  function PieColor(i: nat): string {
    if i == 0 then "#3b82f6"
    else if i == 1 then "#10b981"
    else if i == 2 then "#f59e0b"
    else if i == 3 then "#ef4444"
    else if i == 4 then "#8b5cf6"
    else if i == 5 then "#ec4899"
    else "#94a3b8"
  }

  function ShareData(competitors: seq<Competitor>, share: real): (r: seq<Slice>)
    ensures |r| == |competitors| + 1
  {
    [Slice("Your Company", share, PieColor(0))]
    + seq(|competitors|, i requires 0 <= i < |competitors| =>
        Slice(competitors[i].name, competitors[i].marketShare, PieColor(i + 1)))
  }

  /** The pie has your company first, then every rival in list order with
      its own share; the palette runs out after five rivals. */
  lemma ShareDataShape(competitors: seq<Competitor>, share: real, i: nat)
    requires i < |competitors|
    ensures ShareData(competitors, share)[0].name == "Your Company"
    ensures ShareData(competitors, share)[0].value == share
    ensures ShareData(competitors, share)[i + 1].name == competitors[i].name
    ensures ShareData(competitors, share)[i + 1].value == competitors[i].marketShare
    ensures i + 1 >= PaletteSize ==> ShareData(competitors, share)[i + 1].color == PieColor(PaletteSize)
  {
  }

  // ---- the strength label (MarketSimulation.tsx:199) ----

  datatype Strength = Strong | Moderate | Weak

  function StrengthOf(strength: int): Strength {
    if strength > 70 then Strong else if strength > 40 then Moderate else Weak
  }

  /** The badge text. */
  function StrengthText(s: Strength): string {
    match s
    case Strong => "Strong"
    case Moderate => "Medium"
    case Weak => "Weak"
  }

  function StrengthLevel(s: Strength): nat {
    match s
    case Weak => 0
    case Moderate => 1
    case Strong => 2
  }

  /** The label is Strong above 70, Medium above 40 up to 70, Weak up to
      40, and a stronger rival never gets a weaker label. */
  lemma StrengthBands(strength: int, other: int)
    ensures StrengthOf(strength) == Strong <==> strength > 70
    ensures StrengthOf(strength) == Moderate <==> 40 < strength <= 70
    ensures StrengthOf(strength) == Weak <==> strength <= 40
    ensures strength <= other ==> StrengthLevel(StrengthOf(strength)) <= StrengthLevel(StrengthOf(other))
  {
  }

  // ---- the event list (MarketSimulation.tsx:224) ----

  /** `marketEvents.slice(0, 5)`. */
  function ShownEvents(events: seq<MarketEvent>): (r: seq<MarketEvent>)
    ensures |r| == if |events| <= 5 then |events| else 5
    ensures r == events[..|r|]
  {
    if |events| <= 5 then events else events[..5]
  }
}
