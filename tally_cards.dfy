/**
 * The tally card generator: a tally object holding what is tallied (flux or current),
 * of which particle, on which entity, plus three particle-name alias tables, and the
 * two writers that turn it into MCNP `F`/`SD` cards or fixed-column FLUKA `USRTRACK` /
 * `USRBDX` cards. The writers' text is specified as functions of the tally's fields;
 * the class methods build the same text piece by piece and carry the side effects the
 * FLUKA writer has on the object.
 */
module TallyCards {
  import opened Wrappers
  import opened Text
  import opened TallyRecords

  /* ---------------- Particle-name alias tables ---------------- */

  /** Particle names as FLUKA spells them. */
  const FlukaAliases: map<string, string> := map[
    "n" := "NEUTRON", "antin" := "ANEUTRON", "gamma" := "PHOTON",
    "p" := "  PROTON", "antip" := " APROTON", "d" := "DEUTERON",
    "t" := "  TRITON", "He3" := "3-HELIUM", "a" := "4-HELIUM",
    "e" := "ELECTRON", "antie" := "POSITRON", "muonp" := "MUON+",
    "muonm" := "MUON-", "kaonp" := "KAON+", "kaonm" := "KAON-",
    "kaon0" := "KAONZERO", "antikaon0" := "AKAONZER", "kaon_0_long" := "KAONLONG",
    "kaon_0_short" := "KAONSHRT", "heavy_ion" := "HEAVY_ION",
    "muon_neutrino" := "NEUTRIM", "muon_antineutrino" := "ANEUTRIM"]

  /** Particle designators of MCNP5. */
  const Mcnp5Aliases: map<string, string> := map["n" := "N", "gamma" := "P", "e" := "e"]

  /** Particle designators of MCNP6. */
  const Mcnp6Aliases: map<string, string> := map[
    "n" := "N", "gamma" := "P", "e" := "E", "p" := "H", "d" := "D", "t" := "T"]

  /* ---------------- MCNP cards ---------------- */

  /** The particle token of an MCNP card. A version naming "mcnp5" is served from the
      MCNP5 table even if it also names "mcnp6"; a particle missing from the table
      consulted, or a version naming neither, gives "?". */
  function McnpParticleToken(mcnp5: map<string, string>, mcnp6: map<string, string>,
                             particle: string, version: string): (token: string)
    ensures token == "?" || token in mcnp5.Values || token in mcnp6.Values
    ensures Contains(version, "mcnp5") && particle in mcnp5 ==> token == mcnp5[particle]
    ensures !Contains(version, "mcnp5") && Contains(version, "mcnp6") && particle in mcnp6 ==>
      token == mcnp6[particle]
    ensures Contains(version, "mcnp5") && particle !in mcnp5 ==> token == "?"
    ensures !Contains(version, "mcnp5") && Contains(version, "mcnp6") && particle !in mcnp6 ==> token == "?"
    ensures !Contains(version, "mcnp5") && !Contains(version, "mcnp6") ==> token == "?"
  {
    var table := if Contains(version, "mcnp5") then Some(mcnp5)
                 else if Contains(version, "mcnp6") then Some(mcnp6)
                 else None;
    if table.Some? && particle in table.value then table.value[particle] else "?"
  }

  /** With tables that never use "?" as a designator (the standard ones do not), the
      token is "?" exactly when no table applies or the particle is missing from it. */
  lemma {:induction false} McnpUnknownToken(mcnp5: map<string, string>, mcnp6: map<string, string>,
                                            particle: string, version: string)
    requires "?" !in mcnp5.Values && "?" !in mcnp6.Values
    ensures McnpParticleToken(mcnp5, mcnp6, particle, version) == "?" <==>
      if Contains(version, "mcnp5") then particle !in mcnp5
      else !Contains(version, "mcnp6") || particle !in mcnp6
  {
    if Contains(version, "mcnp5") && particle in mcnp5 {
      assert mcnp5[particle] in mcnp5.Values;
    } else if !Contains(version, "mcnp5") && Contains(version, "mcnp6") && particle in mcnp6 {
      assert mcnp6[particle] in mcnp6.Values;
    }
  }

  lemma StandardTablesHaveNoQuestionMark()
    ensures "?" !in Mcnp5Aliases.Values && "?" !in Mcnp6Aliases.Values
  {
    forall v | v in Mcnp5Aliases.Values ensures v != "?" {
      var k :| k in Mcnp5Aliases && Mcnp5Aliases[k] == v;
    }
    forall v | v in Mcnp6Aliases.Values ensures v != "?" {
      var k :| k in Mcnp6Aliases && Mcnp6Aliases[k] == v;
    }
  }

  /** The entity an MCNP card is written for: a type naming "Surface" is a surface even
      if it also names "Volume". */
  function McnpEntity(entityType: string): Option<EntityKind>
  {
    if Contains(entityType, "Surface") then Some(Surface)
    else if Contains(entityType, "Volume") then Some(Volume)
    else None
  }

  /** The quantity tallied on that entity: on a surface "Current" takes precedence over
      "Flux"; on a volume only "Flux" leads to a card, so it is looked for first. */
  function McnpQuantity(entity: EntityKind, tallyType: string): Option<TallyKind>
  {
    match entity
    case Surface =>
      if Contains(tallyType, "Current") then Some(Current)
      else if Contains(tallyType, "Flux") then Some(Flux)
      else None
    case Volume =>
      if Contains(tallyType, "Flux") then Some(Flux)
      else if Contains(tallyType, "Current") then Some(Current)
      else None
  }

  /** MCNP tally numbers end in the tally kind: 1 surface current, 2 surface flux,
      4 cell flux. A volume current has no MCNP equivalent. */
  function McnpKindDigit(entity: EntityKind, quantity: TallyKind): Option<char>
  {
    match (entity, quantity)
    case (Surface, Current) => Some('1')
    case (Surface, Flux) => Some('2')
    case (Volume, Flux) => Some('4')
    case (Volume, Current) => None
  }

  /** The last digit of the tally number, when the combination gives a card at all. */
  function McnpSuffix(entityType: string, tallyType: string): (d: Option<char>)
    ensures d.None? || d.value in "124"
    ensures d.Some? ==> Contains(entityType, "Surface") || Contains(entityType, "Volume")
    ensures d.Some? ==> Contains(tallyType, "Flux") || Contains(tallyType, "Current")
  {
    match McnpEntity(entityType)
    case None => None
    case Some(e) =>
      match McnpQuantity(e, tallyType)
      case None => None
      case Some(q) => McnpKindDigit(e, q)
  }

  /** Which types lead to which tally number, stated as conditions on the strings. */
  lemma McnpSuffixCases(entityType: string, tallyType: string)
    ensures McnpSuffix(entityType, tallyType) == Some('1') <==>
      Contains(entityType, "Surface") && Contains(tallyType, "Current")
    ensures McnpSuffix(entityType, tallyType) == Some('2') <==>
      Contains(entityType, "Surface") && !Contains(tallyType, "Current") && Contains(tallyType, "Flux")
    ensures McnpSuffix(entityType, tallyType) == Some('4') <==>
      !Contains(entityType, "Surface") && Contains(entityType, "Volume") && Contains(tallyType, "Flux")
    ensures McnpSuffix(entityType, tallyType).None? <==>
      if Contains(entityType, "Surface") then !Contains(tallyType, "Current") && !Contains(tallyType, "Flux")
      else !Contains(entityType, "Volume") || !Contains(tallyType, "Flux")
  {
  }

  /** The lines of the MCNP input for a tally: a comment naming it, then, when the
      entity and tally types give a tally number, the `F` card, and, when a positive
      area or volume is known, the matching `SD` card. */
  function McnpLines(t: TallyRecord, token: string, index: int, formatSize: real -> string): (lines: seq<string>)
    ensures 1 <= |lines| <= 3 && lines[0] == "C " + t.tallyName
    ensures |lines| == 3 ==> t.entitySize > 0.0
  {
    var comment := "C " + t.tallyName;
    match McnpSuffix(t.entityType, t.tallyType)
    case None => [comment]
    case Some(d) =>
      var card := "F" + IntToString(index) + [d] + ":" + token + " " + IntToString(t.entityId);
      if t.entitySize > 0.0 then [comment, card, "SD" + IntToString(index) + [d] + " " + formatSize(t.entitySize)]
      else [comment, card]
  }

  /** The shape of the MCNP deck: always the comment first; an `F` card exactly when
      there is a tally number; an `SD` card exactly when, in addition, the size is
      positive; and both cards carry the same tally number. */
  lemma McnpLinesShape(t: TallyRecord, token: string, index: int, formatSize: real -> string)
    ensures var lines := McnpLines(t, token, index, formatSize);
      && 1 <= |lines| <= 3
      && lines[0] == "C " + t.tallyName
      && (|lines| >= 2 <==> McnpSuffix(t.entityType, t.tallyType).Some?)
      && (|lines| == 3 <==> McnpSuffix(t.entityType, t.tallyType).Some? && t.entitySize > 0.0)
      && (|lines| >= 2 ==>
            lines[1] == "F" + IntToString(index) + [McnpSuffix(t.entityType, t.tallyType).value] + ":"
                        + token + " " + IntToString(t.entityId))
      && (|lines| == 3 ==>
            lines[2] == "SD" + IntToString(index) + [McnpSuffix(t.entityType, t.tallyType).value] + " "
                        + formatSize(t.entitySize))
  {
  }

  lemma {:induction false} NoNewlineAppend(a: string, b: string)
    requires NoNewline(a) && NoNewline(b)
    ensures NoNewline(a + b)
  {
    forall i | 0 <= i < |a + b| ensures (a + b)[i] != '\n' {
      if i >= |a| {
        assert (a + b)[i] == b[i - |a|];
      }
    }
  }

  lemma IntToStringNoNewline(i: int)
    ensures NoNewline(IntToString(i))
  {
  }

  /** As long as the tally name, the particle token and the formatted size hold no
      newline, the MCNP text breaks up into exactly the lines of McnpLines. */
  lemma {:induction false} McnpTextLines(t: TallyRecord, token: string, index: int, formatSize: real -> string)
    requires NoNewline(t.tallyName) && NoNewline(token) && NoNewline(formatSize(t.entitySize))
    ensures SplitLines(JoinLines(McnpLines(t, token, index, formatSize))) == McnpLines(t, token, index, formatSize)
  {
    var lines := McnpLines(t, token, index, formatSize);
    IntToStringNoNewline(index);
    IntToStringNoNewline(t.entityId);
    NoNewlineAppend("C ", t.tallyName);
    match McnpSuffix(t.entityType, t.tallyType) {
      case None =>
      case Some(d) =>
      NoNewlineAppend("F", IntToString(index));
      NoNewlineAppend("F" + IntToString(index), [d]);
      NoNewlineAppend("F" + IntToString(index) + [d], ":");
      NoNewlineAppend("F" + IntToString(index) + [d] + ":", token);
      NoNewlineAppend("F" + IntToString(index) + [d] + ":" + token, " ");
      NoNewlineAppend("F" + IntToString(index) + [d] + ":" + token + " ", IntToString(t.entityId));
      NoNewlineAppend("SD", IntToString(index));
      NoNewlineAppend("SD" + IntToString(index), [d]);
      NoNewlineAppend("SD" + IntToString(index) + [d], " ");
      NoNewlineAppend("SD" + IntToString(index) + [d] + " ", formatSize(t.entitySize));
    }
    SplitJoinLines(lines);
  }

  /* ---------------- FLUKA cards ---------------- */

  /** The particle name the FLUKA writer uses, after looking it up with the inserting
      subscript: a particle missing from the table reads as the empty string. */
  function FlukaParticle(table: map<string, string>, particle: string): (name: string)
    ensures name == "" || name in table.Values
    ensures particle in table ==> name == table[particle]
    ensures particle !in table ==> name == ""
  {
    if particle in table then table[particle] else ""
  }

  /** The first USRTRACK card: keyword, detector type 1.0, particle, output unit, region,
      volume, 1000 energy bins, and the tally name left-justified in SDUM. */
  function TrackFirstCard(particle: string, unit: string, region: string, size: string, name8: string): string
  {
    Card(PadRight("USRTRACK", 10), PadLeft("     1.0", 10), PadLeft(particle, 10), PadLeft(unit, 10),
         PadLeft(region, 10), PadLeft(size, 10), PadLeft("   1000.", 10), PadRight(name8, 8))
  }

  /** The continuation mark that ends the second card of each detector. */
  const ContinuationMark: string := "       &"

  /** The USRTRACK continuation card: upper and lower energy limits, four blank fields. */
  function TrackSecondCard(): string
  {
    Card(PadRight("USRTRACK", 10), PadLeft("   1.E-3", 10), PadLeft("   10.E1", 10),
         PadLeft("        ", 10), PadLeft("        ", 10), PadLeft("        ", 10), PadLeft("        ", 10),
         PadRight(ContinuationMark, 8))
  }

  /** The first USRBDX card: keyword, detector type 110.0, particle, output unit, the
      region as both upstream and downstream region, area, and the tally name
      right-justified in SDUM. */
  function BdxFirstCard(particle: string, unit: string, region: string, size: string, name8: string): string
  {
    Card(PadRight("USRBDX  ", 10), PadLeft("   110.0", 10), PadLeft(particle, 10), PadLeft(unit, 10),
         PadLeft(region, 10), PadLeft(region, 10), PadLeft(size, 10), PadLeft(name8, 8))
  }

  /** The USRBDX continuation card: energy limits, 1000 energy bins, solid angle 4 pi,
      lower angle, 240 angular bins. */
  function BdxSecondCard(): string
  {
    Card(PadRight("USRBDX  ", 10), PadLeft("  10.0E1", 10), PadLeft("     0.0", 10), PadLeft("  1000.0", 10),
         PadLeft("12.56637", 10), PadLeft("     0.0", 10), PadLeft("   240.0", 10),
         PadRight(ContinuationMark, 8))
  }

  /** The two cards of a detector, separated by a newline; no newline follows the
      second. */
  function TrackCards(particle: string, unit: string, region: string, size: string, name8: string): string
  {
    TrackFirstCard(particle, unit, region, size, name8) + "\n" + TrackSecondCard()
  }

  function BdxCards(particle: string, unit: string, region: string, size: string, name8: string): string
  {
    BdxFirstCard(particle, unit, region, size, name8) + "\n" + BdxSecondCard()
  }

  /** The size written in the volume or area field: the tally's own when positive,
      otherwise one. */
  function SizeValue(t: TallyRecord): real
  {
    if t.entitySize > 0.0 then t.entitySize else 1.0
  }

  /** The detector cards for the tally kind the tally type names ("Flux" before
      "Current"): none for neither. */
  function DetectorCards(kind: Option<TallyKind>, particle: string, unit: string, region: string,
                         size: string, name8: string): string
  {
    match kind
    case None => ""
    case Some(Flux) => TrackCards(particle, unit, region, size, name8)
    case Some(Current) => BdxCards(particle, unit, region, size, name8)
  }

  /** The FLUKA input for a tally, given the particle name already looked up: a comment
      line naming the tally as it was before the call; then, for a tally type naming
      "Flux", a USRTRACK detector, for one naming "Current" (and not "Flux") a USRBDX
      detector, each ending in the tally name cut or NUL-padded to eight characters; any
      other tally type gives only the comment. */
  function FlukaDeck(t: TallyRecord, particle: string, unit: string, formatFixed: real -> string): string
  {
    "* " + t.tallyName + "\n"
    + DetectorCards(ClassifyTally(t.tallyType), particle, unit, t.entityName,
                    formatFixed(SizeValue(t)), Resize(t.tallyName, 8))
  }

  /** Whether the variable fields of a card fit their ten columns. */
  predicate FitsColumns(particle: string, unit: string, region: string, size: string)
  {
    |particle| <= 10 && |unit| <= 10 && |region| <= 10 && |size| <= 10
  }

  /** The first USRTRACK card in FLUKA's fixed format: 78 columns, the keyword in
      columns 1-10, and each value in its own ten columns (the particle as WHAT(2), the
      unit as WHAT(3), the region as WHAT(4), the volume as WHAT(5)), right-justified,
      and the eight-character tally name in the SDUM columns 71-78. */
  lemma TrackCardColumns(particle: string, unit: string, region: string, size: string, name: string)
    requires FitsColumns(particle, unit, region, size)
    ensures var card := TrackFirstCard(particle, unit, region, size, Resize(name, 8));
      && |card| == 78
      && card[0..10] == "USRTRACK  "
      && card[20..30] == PadLeft(particle, 10)
      && card[30..40] == PadLeft(unit, 10)
      && card[40..50] == PadLeft(region, 10)
      && card[50..60] == PadLeft(size, 10)
      && card[70..78] == Resize(name, 8)
  {
    var name8 := Resize(name, 8);
    CardLayout(PadRight("USRTRACK", 10), PadLeft("     1.0", 10), PadLeft(particle, 10), PadLeft(unit, 10),
               PadLeft(region, 10), PadLeft(size, 10), PadLeft("   1000.", 10), PadRight(name8, 8));
    assert PadRight("USRTRACK", 10) == "USRTRACK  ";
  }

  /** The first USRBDX card likewise: the particle as WHAT(2), the unit as WHAT(3), the
      region as both WHAT(4) and WHAT(5), the area as WHAT(6), the name in SDUM. */
  lemma BdxCardColumns(particle: string, unit: string, region: string, size: string, name: string)
    requires FitsColumns(particle, unit, region, size)
    ensures var card := BdxFirstCard(particle, unit, region, size, Resize(name, 8));
      && |card| == 78
      && card[0..10] == "USRBDX    "
      && card[20..30] == PadLeft(particle, 10)
      && card[30..40] == PadLeft(unit, 10)
      && card[40..50] == PadLeft(region, 10)
      && card[50..60] == PadLeft(region, 10)
      && card[60..70] == PadLeft(size, 10)
      && card[70..78] == Resize(name, 8)
  {
    var name8 := Resize(name, 8);
    CardLayout(PadRight("USRBDX  ", 10), PadLeft("   110.0", 10), PadLeft(particle, 10), PadLeft(unit, 10),
               PadLeft(region, 10), PadLeft(region, 10), PadLeft(size, 10), PadLeft(name8, 8));
    assert PadRight("USRBDX  ", 10) == "USRBDX    ";
  }

  /** Both continuation cards are 78 columns wide and end in the continuation mark. */
  lemma ContinuationCardsColumns()
    ensures |TrackSecondCard()| == 78 && TrackSecondCard()[70..] == ContinuationMark
    ensures |BdxSecondCard()| == 78 && BdxSecondCard()[70..] == ContinuationMark
  {
    CardLayout(PadRight("USRTRACK", 10), PadLeft("   1.E-3", 10), PadLeft("   10.E1", 10),
               PadLeft("        ", 10), PadLeft("        ", 10), PadLeft("        ", 10), PadLeft("        ", 10),
               PadRight(ContinuationMark, 8));
    CardLayout(PadRight("USRBDX  ", 10), PadLeft("  10.0E1", 10), PadLeft("     0.0", 10), PadLeft("  1000.0", 10),
               PadLeft("12.56637", 10), PadLeft("     0.0", 10), PadLeft("   240.0", 10),
               PadRight(ContinuationMark, 8));
  }

  /** Every FLUKA particle name in the standard table, and the empty name a missing
      particle reads as, fits the ten-column particle field. */
  lemma FlukaParticleFits(particle: string)
    ensures |FlukaParticle(FlukaAliases, particle)| <= 10
  {
  }

  /** Whatever the fields hold, the FLUKA deck starts with the comment line naming the
      tally, and it is only that line exactly when the tally type names neither "Flux"
      nor "Current". */
  lemma FlukaDeckComment(t: TallyRecord, particle: string, unit: string, formatFixed: real -> string)
    ensures var deck := FlukaDeck(t, particle, unit, formatFixed);
      var comment := "* " + t.tallyName + "\n";
      && |deck| >= |comment| && deck[..|comment|] == comment
      && (ClassifyTally(t.tallyType).None? <==> |deck| == |comment|)
  {
    var comment := "* " + t.tallyName + "\n";
    var cards := DetectorCards(ClassifyTally(t.tallyType), particle, unit, t.entityName,
                               formatFixed(SizeValue(t)), Resize(t.tallyName, 8));
    assert FlukaDeck(t, particle, unit, formatFixed) == comment + cards;
  }

  /** When the particle, the unit, the region and the formatted size each fit ten
      columns, a flux or current deck goes on after the comment with two cards of
      exactly 78 columns separated by a newline. */
  lemma FlukaDeckShape(t: TallyRecord, particle: string, unit: string, formatFixed: real -> string)
    requires FitsColumns(particle, unit, t.entityName, formatFixed(SizeValue(t)))
    ensures var deck := FlukaDeck(t, particle, unit, formatFixed);
      var comment := "* " + t.tallyName + "\n";
      ClassifyTally(t.tallyType).Some? ==>
        |deck| == |comment| + 78 + 1 + 78 && deck[|comment| + 78] == '\n'
  {
    var comment := "* " + t.tallyName + "\n";
    var size := formatFixed(SizeValue(t));
    var name8 := Resize(t.tallyName, 8);
    ContinuationCardsColumns();
    match ClassifyTally(t.tallyType) {
      case None =>
      case Some(Flux) =>
        TrackCardColumns(particle, unit, t.entityName, size, t.tallyName);
        DeckOfTwoCards(comment, TrackFirstCard(particle, unit, t.entityName, size, name8), TrackSecondCard());
      case Some(Current) =>
        BdxCardColumns(particle, unit, t.entityName, size, t.tallyName);
        DeckOfTwoCards(comment, BdxFirstCard(particle, unit, t.entityName, size, name8), BdxSecondCard());
    }
  }

  lemma DeckOfTwoCards(comment: string, first: string, second: string)
    requires |first| == 78 && |second| == 78
    ensures var deck := comment + (first + "\n" + second);
      && |deck| == |comment| + 78 + 1 + 78
      && deck[..|comment|] == comment
      && deck[|comment| + 78] == '\n'
  {
  }

  /** Writes the USRTRACK cards field by field, as the stream receives them; name8 is
      the already resized tally name. */
  method WriteTrackCards(particle: string, unit: string, region: string, size: string, name8: string)
    returns (cards: string)
    ensures cards == TrackCards(particle, unit, region, size, name8)
  {
    var first := PadRight("USRTRACK", 10);
    first := first + PadLeft("     1.0", 10);
    first := first + PadLeft(particle, 10);
    first := first + PadLeft(unit, 10);
    first := first + PadLeft(region, 10);
    first := first + PadLeft(size, 10);
    first := first + PadLeft("   1000.", 10);
    first := first + PadRight(name8, 8);
    var second := PadRight("USRTRACK", 10);
    second := second + PadLeft("   1.E-3", 10);
    second := second + PadLeft("   10.E1", 10);
    second := second + PadLeft("        ", 10);
    second := second + PadLeft("        ", 10);
    second := second + PadLeft("        ", 10);
    second := second + PadLeft("        ", 10);
    second := second + PadRight(ContinuationMark, 8);
    cards := first + "\n" + second;
  }

  /** Writes the USRBDX cards field by field. */
  method WriteBdxCards(particle: string, unit: string, region: string, size: string, name8: string)
    returns (cards: string)
    ensures cards == BdxCards(particle, unit, region, size, name8)
  {
    var first := PadRight("USRBDX  ", 10);
    first := first + PadLeft("   110.0", 10);
    first := first + PadLeft(particle, 10);
    first := first + PadLeft(unit, 10);
    first := first + PadLeft(region, 10);
    first := first + PadLeft(region, 10);
    first := first + PadLeft(size, 10);
    first := first + PadLeft(name8, 8);
    var second := PadRight("USRBDX  ", 10);
    second := second + PadLeft("  10.0E1", 10);
    second := second + PadLeft("     0.0", 10);
    second := second + PadLeft("  1000.0", 10);
    second := second + PadLeft("12.56637", 10);
    second := second + PadLeft("     0.0", 10);
    second := second + PadLeft("   240.0", 10);
    second := second + PadRight(ContinuationMark, 8);
    cards := first + "\n" + second;
  }

  /** Writes the detector cards of the tally kind the tally type names. */
  method WriteDetectorCards(tallyType: string, particle: string, unit: string, region: string,
                            size: string, name8: string) returns (cards: string)
    ensures cards == DetectorCards(ClassifyTally(tallyType), particle, unit, region, size, name8)
  {
    if Contains(tallyType, "Flux") {
      cards := WriteTrackCards(particle, unit, region, size, name8);
    } else if Contains(tallyType, "Current") {
      cards := WriteBdxCards(particle, unit, region, size, name8);
    } else {
      cards := "";
    }
  }

  /** Writes the FLUKA text of tally t for the particle name already looked up: the
      comment with the name as it was, then the detector cards, whose SDUM field holds
      the name cut or NUL-padded to eight characters. Also returns the name the tally
      keeps afterwards: resized for a flux or current tally, untouched otherwise. */
  method WriteFlukaDeck(t: TallyRecord, particle: string, unit: string, formatFixed: real -> string)
    returns (deck: string, name: string)
    ensures deck == FlukaDeck(t, particle, unit, formatFixed)
    ensures name == if ClassifyTally(t.tallyType).Some? then Resize(t.tallyName, 8) else t.tallyName
  {
    var comment := "* " + t.tallyName + "\n";
    var size := if t.entitySize > 0.0 then formatFixed(t.entitySize) else formatFixed(1.0);
    assert size == formatFixed(SizeValue(t));
    // both detector kinds cut the name to the eight SDUM columns before writing it
    name := t.tallyName;
    if Contains(t.tallyType, "Flux") || Contains(t.tallyType, "Current") {
      name := Resize(name, 8);
    }
    var cards := WriteDetectorCards(t.tallyType, particle, unit, t.entityName, size, name);
    assert cards == DetectorCards(ClassifyTally(t.tallyType), particle, unit, t.entityName, size,
                                  Resize(t.tallyName, 8));
    deck := comment + cards;
  }

  /** The name a flux or current tally has after `fluka()`, stored in the tally table
      and read back: the NUL padding of the resize is lost, so a name of at most eight
      characters without NUL comes back as it was, and a longer one as its first
      eight characters. */
  lemma FlukaNameReadBack(t: TallyRecord)
    requires NoNul(t.tallyName)
    requires ClassifyEntity(t.entityType).Some? && ClassifyTally(t.tallyType).Some?
    ensures UnpackRow(PackRow(t.(tallyName := Resize(t.tallyName, 8)))).tallyName ==
      if |t.tallyName| <= 8 then t.tallyName else t.tallyName[..8]
  {
    ResizeThenCString(t.tallyName, 8);
    CStringIdempotent(Resize(t.tallyName, 8));
  }

  /* ---------------- Printing a tally ---------------- */

  /** The three lines `operator<<` prints for a tally. */
  function DescribeLines(t: TallyRecord): seq<string>
  {
    ["\t---------",
     "\t Tallying " + t.particleName + " " + t.tallyType,
     "\t in/on " + t.entityType + " " + IntToString(t.entityId)]
  }

  function Describe(t: TallyRecord): string
  {
    JoinLines(DescribeLines(t))
  }

  /** The printed form is three lines, and the entity id can be read back from the end
      of the last one, provided the names print no newline. */
  lemma {:induction false} DescribeReadsBack(t: TallyRecord)
    requires NoNewline(t.particleName) && NoNewline(t.tallyType) && NoNewline(t.entityType)
    ensures var lines := SplitLines(Describe(t));
      && |lines| == 3
      && lines[0] == "\t---------"
      && |lines[2]| > |IntToString(t.entityId)|
      && DecimalValue(lines[2][|lines[2]| - |IntToString(t.entityId)|..]) == t.entityId
  {
    var id := IntToString(t.entityId);
    IntToStringNoNewline(t.entityId);
    NoNewlineAppend("\t Tallying ", t.particleName);
    NoNewlineAppend("\t Tallying " + t.particleName, " ");
    NoNewlineAppend("\t Tallying " + t.particleName + " ", t.tallyType);
    NoNewlineAppend("\t in/on ", t.entityType);
    NoNewlineAppend("\t in/on " + t.entityType, " ");
    NoNewlineAppend("\t in/on " + t.entityType + " ", id);
    SplitJoinLines(DescribeLines(t));
    var last := "\t in/on " + t.entityType + " " + id;
    assert last[|last| - |id|..] == id;
    IntToStringRoundTrip(t.entityId);
  }

  lemma EmptyUnion(m: map<string, string>)
    ensures map[] + m == m
  {
  }

  /* ---------------- The tally object ---------------- */

  class Tally {
    var tallyType: string
    var particleName: string
    var entityId: int
    var entityType: string
    var entityName: string
    var tallyName: string
    var entitySize: real
    var rx2fluka: map<string, string>
    var rx2mcnp5: map<string, string>
    var rx2mcnp6: map<string, string>

    /** The tally's seven descriptive fields as a value. */
    function Record(): TallyRecord
      reads this
    {
      TallyRecord(tallyType, particleName, entityId, entityType, entityName, tallyName, entitySize)
    }

    /** The empty tally: no strings, entity id -1, size -1, standard alias tables. */
    constructor Empty()
      ensures Record() == TallyRecord("", "", -1, "", "", "", -1.0)
      ensures rx2fluka == FlukaAliases && rx2mcnp5 == Mcnp5Aliases && rx2mcnp6 == Mcnp6Aliases
    {
      tallyType := "";
      particleName := "";
      entityId := -1;
      entityType := "";
      entityName := "";
      tallyName := "";
      entitySize := -1.0;
      rx2fluka, rx2mcnp5, rx2mcnp6 := map[], map[], map[];
      new;
      SetupAlias();
      EmptyUnion(FlukaAliases);
      EmptyUnion(Mcnp5Aliases);
      EmptyUnion(Mcnp6Aliases);
    }

    /** A tally with the given fields and the standard alias tables. */
    constructor (tallyType: string, particleName: string, entityId: int, entityType: string,
                 entityName: string, tallyName: string, entitySize: real)
      ensures Record() == TallyRecord(tallyType, particleName, entityId, entityType,
                                      entityName, tallyName, entitySize)
      ensures rx2fluka == FlukaAliases && rx2mcnp5 == Mcnp5Aliases && rx2mcnp6 == Mcnp6Aliases
    {
      this.tallyType := tallyType;
      this.particleName := particleName;
      this.entityId := entityId;
      this.entityType := entityType;
      this.entityName := entityName;
      this.tallyName := tallyName;
      this.entitySize := entitySize;
      rx2fluka, rx2mcnp5, rx2mcnp6 := map[], map[], map[];
      new;
      SetupAlias();
      EmptyUnion(FlukaAliases);
      EmptyUnion(Mcnp5Aliases);
      EmptyUnion(Mcnp6Aliases);
    }

    /** Enters the standard aliases into the three tables, overwriting any entry with
        the same particle name and keeping the others. The source assigns the entries
        one by one; as their keys are distinct, that is one map union per table. */
    method SetupAlias()
      modifies this
      ensures rx2fluka == old(rx2fluka) + FlukaAliases
      ensures rx2mcnp5 == old(rx2mcnp5) + Mcnp5Aliases
      ensures rx2mcnp6 == old(rx2mcnp6) + Mcnp6Aliases
      ensures Record() == old(Record())
    {
      rx2fluka := rx2fluka + FlukaAliases;
      rx2mcnp5 := rx2mcnp5 + Mcnp5Aliases;
      rx2mcnp6 := rx2mcnp6 + Mcnp6Aliases;
    }

    /** The MCNP cards for this tally under tally number `index`. The tables are only
        read (a lookup is made only after checking the key is present), so the object
        is left as it was: the method may modify nothing. */
    method Mcnp(index: int, version: string, formatSize: real -> string) returns (deck: string)
      ensures deck == JoinLines(McnpLines(Record(),
                                          McnpParticleToken(rx2mcnp5, rx2mcnp6, particleName, version),
                                          index, formatSize))
    {
      var token: string;
      if Contains(version, "mcnp5") {
        if particleName in rx2mcnp5 {
          token := rx2mcnp5[particleName];
        } else {
          token := "?";
        }
      } else if Contains(version, "mcnp6") {
        if particleName in rx2mcnp6 {
          token := rx2mcnp6[particleName];
        } else {
          token := "?";
        }
      } else {
        token := "?";
      }
      assert token == McnpParticleToken(rx2mcnp5, rx2mcnp6, particleName, version);

      var comment := "C " + tallyName;
      var digit: char;
      var card := false;
      if Contains(entityType, "Surface") {
        if Contains(tallyType, "Current") {
          digit, card := '1', true;
        } else if Contains(tallyType, "Flux") {
          digit, card := '2', true;
        }
      } else if Contains(entityType, "Volume") {
        // a volume current has no MCNP card
        if Contains(tallyType, "Flux") {
          digit, card := '4', true;
        }
      }
      assert card <==> McnpSuffix(entityType, tallyType).Some?;
      assert card ==> McnpSuffix(entityType, tallyType) == Some(digit);
      if !card {
        deck := comment + "\n";
        JoinLinesOne(comment);
      } else {
        var fCard := "F" + IntToString(index) + [digit] + ":" + token + " " + IntToString(entityId);
        deck := comment + "\n" + fCard + "\n";
        if entitySize > 0.0 {
          var sdCard := "SD" + IntToString(index) + [digit] + " " + formatSize(entitySize);
          deck := deck + sdCard + "\n";
          JoinLinesThree(comment, fCard, sdCard);
        } else {
          JoinLinesTwo(comment, fCard);
        }
      }
    }

    /** The subscript of the FLUKA name table: it yields the name stored for key, and
        inserts key with an empty name first when the table lacks it. */
    method FlukaSubscript(key: string) returns (value: string)
      modifies this`rx2fluka
      ensures rx2fluka == if key in old(rx2fluka) then old(rx2fluka) else old(rx2fluka)[key := ""]
      ensures value == FlukaParticle(old(rx2fluka), key)
    {
      if key in rx2fluka {
        value := rx2fluka[key];
      } else {
        value := "";
        rx2fluka := rx2fluka[key := ""];
      }
    }

    /** The FLUKA cards for this tally, written to output unit `unit`. Looking the
        particle up inserts it into the FLUKA table with an empty name when it is
        missing; a flux or current tally also has its name cut or NUL-padded to eight
        characters. Nothing else changes. */
    method Fluka(unit: string, formatFixed: real -> string) returns (deck: string)
      modifies this`rx2fluka, this`tallyName
      ensures rx2fluka == if old(particleName) in old(rx2fluka) then old(rx2fluka)
                          else old(rx2fluka)[old(particleName) := ""]
      ensures particleName in rx2fluka
      ensures tallyName == if ClassifyTally(old(tallyType)).Some? then Resize(old(tallyName), 8)
                           else old(tallyName)
      ensures tallyType == old(tallyType) && particleName == old(particleName)
      ensures entityId == old(entityId) && entityType == old(entityType)
      ensures entityName == old(entityName) && entitySize == old(entitySize)
      ensures unchanged(this`rx2mcnp5, this`rx2mcnp6)
      ensures deck == FlukaDeck(old(Record()), FlukaParticle(old(rx2fluka), particleName), unit, formatFixed)
    {
      var rec := Record();
      var partName := FlukaSubscript(particleName);
      var name;
      deck, name := WriteFlukaDeck(rec, partName, unit, formatFixed);
      tallyName := name;
    }

    /** Sets the seven descriptive fields from row `row` of a tally table, the row
        number clamped as ClampRow says; the alias tables are left alone. */
    method ReadRow(table: seq<StoredRow>, row: int)
      requires IsInt32(row) && 1 <= |table| <= Int32Max + 1
      requires Readable(table[ClampRow(row, |table|)])
      modifies this
      ensures Record() == UnpackRow(table[ClampRow(row, |table|)])
      ensures unchanged(this`rx2fluka, this`rx2mcnp5, this`rx2mcnp6)
    {
      var dataRow := ClampedRow(row, |table|);
      var r := table[dataRow];
      entityId := r.entityId;
      entityType := EntityTypeName(r.entityType.value);
      tallyType := TallyTypeName(r.tallyType.value);
      // the names are read back as C strings
      particleName := CString(r.particleName);
      tallyName := CString(r.tallyName);
      entityName := CString(r.entityName);
      entitySize := r.entitySize;
    }

    /** The table row this tally is written as. */
    method WriteRow() returns (r: StoredRow)
      ensures r == PackRow(Record())
    {
      var entityCode: Option<nat> := None;
      if Contains(entityType, "Volume") {
        entityCode := Some(EntityCode(Volume));
      } else if Contains(entityType, "Surface") {
        entityCode := Some(EntityCode(Surface));
      }
      var tallyCode: Option<nat> := None;
      if Contains(tallyType, "Flux") {
        tallyCode := Some(TallyCode(Flux));
      } else if Contains(tallyType, "Current") {
        tallyCode := Some(TallyCode(Current));
      }
      // the names are handed over as C strings
      r := StoredRow(entityId, entityCode, tallyCode, CString(particleName), CString(entityName),
                     CString(tallyName), entitySize);
    }
  }
}
