/**
  The prompt builder of prompts.py: `create_travel_prompt` assembles four
  sections (persona, trip details, grounding data, output format) separated
  by blank lines.

  Each section is a triple-quoted literal that opens and closes on its own
  line and indents every line by four spaces; `Block` writes such a literal
  from its lines, so every string below is the source's text, trailing spaces
  included, with the f-string substitutions in place.
 */
module Prompts {
  import opened Text
  import opened PyFormat

  /** What starts every line of a section, and what closes it. */
  const LineBreak := "\n    "

  /** The separator between two sections. */
  const SectionBreak := "\n\n"

  /** A triple-quoted section whose lines are `lines`. */
  function Block(lines: seq<string>): string
  {
    LineBreak + Join(lines, LineBreak) + LineBreak
  }

  /** Section 1, the persona; it does not depend on any input. */
  const Persona := Block([
    "You are an expert travel itinerary planner with decades of experience. ",
    "Your goal is to create a perfectly logical, feasible, and personalized travel plan.",
    "You prioritize real, existing locations and practical travel times."])

  const DestinationLabel := "- Destination: "
  const DurationLabel := "- Duration: "
  const DaysSuffix := " days"
  const BudgetLabel := "- Budget: "
  const InterestsLabel := "- User Interests: "
  const InterestsSeparator := ", "

  /** Section 2, the trip details (`user_context`). */
  function TripDetails(destination: string, duration: int, budget: string, interests: seq<string>): string
  {
    Block([
      "TRIP DETAILS:",
      DestinationLabel + destination,
      DurationLabel + IntToString(duration) + DaysSuffix,
      BudgetLabel + budget,
      InterestsLabel + Join(interests, InterestsSeparator)])
  }

  const GroundingTitle := "REAL DATA FROM GOOGLE MAPS:"
  const PlacesIntro := "We have already identified these top-rated places in "

  /** Section 3, the grounding data (`map_context`); the place list appears as Python's `str` of a list. */
  function Grounding(destination: string, places: seq<string>): string
  {
    Block([
      GroundingTitle,
      PlacesIntro + destination + ":",
      ListRepr(places),
      "",
      "INSTRUCTION: You MUST incorporate these specific places into the itinerary ",
      "where they fit logically. You can add other famous spots, but prioritize these."])
  }

  const MorningLabel := "**Morning:**"
  const LunchLabel := "**Lunch:**"
  const AfternoonLabel := "**Afternoon:**"
  const EveningLabel := "**Evening:**"

  /** The lines of section 4, the output format. */
  const FormatLines := [
    "OUTPUT FORMAT:",
    "Please structure your response in clear Markdown.",
    "For each day, provide:",
    "- **Day X: [Theme of the Day]**",
    "- " + MorningLabel + " [Activity]",
    "- " + LunchLabel + " [Restaurant recommendation based on budget]",
    "- " + AfternoonLabel + " [Activity]",
    "- " + EveningLabel + " [Dinner or Night Activity]",
    "",
    "Make sure the route is geographically logical (don't jump across the city and back)."]

  /** Section 4, the output format; it does not depend on any input. */
  const OutputFormat := Block(FormatLines)

  /**
    `create_travel_prompt(destination, duration, budget, interests, poi_list)`:
    the f-string `{a}\n\n{b}\n\n{c}\n\n{d}` is the four sections joined by a blank line.
   */
  function CreateTravelPrompt(destination: string, duration: int, budget: string,
                              interests: seq<string>, places: seq<string>): string
  {
    Join([Persona, TripDetails(destination, duration, budget, interests), Grounding(destination, places), OutputFormat],
         SectionBreak)
  }

  /** Line `i` of a section sits after the line breaks and the lines before it. */
  lemma BlockLine(lines: seq<string>, i: nat)
    requires i < |lines|
    ensures ContainsAt(Block(lines), lines[i], |LineBreak| + JoinOffset(lines, LineBreak, i))
  {
    JoinAt(lines, LineBreak, i);
    ContainsAtConcat(LineBreak, Join(lines, LineBreak), LineBreak, lines[i], JoinOffset(lines, LineBreak, i));
  }

  /**
    The four sections tile the prompt in the fixed order persona, trip details,
    grounding, output format, with a blank line between neighbours; this holds for
    every input, an empty place list included.
   */
  lemma PromptSections(destination: string, duration: int, budget: string,
                       interests: seq<string>, places: seq<string>)
    ensures var p := CreateTravelPrompt(destination, duration, budget, interests, places);
            var d := TripDetails(destination, duration, budget, interests);
            var g := Grounding(destination, places);
            var k1 := |Persona| + |SectionBreak|;
            var k2 := k1 + |d| + |SectionBreak|;
            var k3 := k2 + |g| + |SectionBreak|;
            && ContainsAt(p, Persona, 0)
            && ContainsAt(p, SectionBreak, |Persona|)
            && ContainsAt(p, d, k1)
            && ContainsAt(p, SectionBreak, k1 + |d|)
            && ContainsAt(p, g, k2)
            && ContainsAt(p, SectionBreak, k2 + |g|)
            && ContainsAt(p, OutputFormat, k3)
            && |p| == k3 + |OutputFormat|
  {
    FourSections(Persona, TripDetails(destination, duration, budget, interests),
                 Grounding(destination, places), OutputFormat, SectionBreak);
  }

  /** Four pieces joined by `sep` sit one after the other, `sep` between neighbours. */
  lemma FourSections(a: string, b: string, c: string, d: string, sep: string)
    ensures var p := Join([a, b, c, d], sep);
            var k1 := |a| + |sep|;
            var k2 := k1 + |b| + |sep|;
            var k3 := k2 + |c| + |sep|;
            && ContainsAt(p, a, 0)
            && ContainsAt(p, sep, |a|)
            && ContainsAt(p, b, k1)
            && ContainsAt(p, sep, k1 + |b|)
            && ContainsAt(p, c, k2)
            && ContainsAt(p, sep, k2 + |c|)
            && ContainsAt(p, d, k3)
            && |p| == k3 + |d|
  {
    var s := [a, b, c, d];
    JoinAt(s, sep, 0);
    JoinAt(s, sep, 1);
    JoinAt(s, sep, 2);
    JoinAt(s, sep, 3);
  }

  /**
    The trip-details section names the destination, `<duration> days` and the budget
    verbatim, and its last line is the interests joined by ", " in input order
    (nothing after the label when there are none).
   */
  lemma TripDetailsContents(destination: string, duration: int, budget: string, interests: seq<string>)
    ensures var d := TripDetails(destination, duration, budget, interests);
            var line := InterestsLabel + Join(interests, InterestsSeparator);
            var last := LineBreak + line + LineBreak;
            && Contains(d, destination)
            && Contains(d, IntToString(duration) + DaysSuffix)
            && Contains(d, budget)
            && ContainsAt(d, last, |d| - |last|)
  {
    var d := TripDetails(destination, duration, budget, interests);
    var lines := [
      "TRIP DETAILS:",
      DestinationLabel + destination,
      DurationLabel + IntToString(duration) + DaysSuffix,
      BudgetLabel + budget,
      InterestsLabel + Join(interests, InterestsSeparator)];
    LabelledLine(lines, 1, DestinationLabel, destination, "");
    LabelledLine(lines, 2, DurationLabel, IntToString(duration) + DaysSuffix, "");
    LabelledLine(lines, 3, BudgetLabel, budget, "");
    LastLineOf(lines, InterestsLabel + Join(interests, InterestsSeparator));
  }

  /** With no interests the interests line is the bare label. */
  lemma NoInterests(destination: string, duration: int, budget: string)
    ensures var d := TripDetails(destination, duration, budget, []);
            var last := LineBreak + InterestsLabel + LineBreak;
            ContainsAt(d, last, |d| - |last|)
  {
    TripDetailsContents(destination, duration, budget, []);
    assert InterestsLabel + Join([], InterestsSeparator) == InterestsLabel;
  }

  /** A value written on a line of a section, between a known lead and tail, occurs in the section. */
  lemma LabelledLine(lines: seq<string>, i: nat, lead: string, value: string, tail: string)
    requires i < |lines| && lines[i] == lead + value + tail
    ensures Contains(Block(lines), value)
  {
    BlockLine(lines, i);
    ValueInLine(Block(lines), lead, value, tail, |LineBreak| + JoinOffset(lines, LineBreak, i));
  }

  /** The last line of a section, with the breaks around it, ends the section. */
  lemma LastLineOf(lines: seq<string>, line: string)
    requires |lines| > 0 && lines[|lines| - 1] == line
    ensures var b := Block(lines);
            var last := LineBreak + line + LineBreak;
            ContainsAt(b, last, |b| - |last|)
  {
    LineWithBreaks(lines, |lines| - 1);
  }

  /** A value framed by a known lead and tail inside an occurrence of the line occurs after the lead. */
  lemma ValueInLine(s: string, lead: string, value: string, tail: string, k: int)
    requires ContainsAt(s, lead + value + tail, k)
    ensures ContainsAt(s, value, k + |lead|)
  {
    ContainsAtConcat(lead, value, tail, value, 0) by {
      ContainsPrefix(value, []);
    }
    ContainsAtTrans(s, lead + value + tail, value, k, |lead|);
  }

  /** Every line of a section sits between two line breaks; the last one ends the section. */
  lemma LineWithBreaks(lines: seq<string>, i: nat)
    requires i < |lines|
    ensures ContainsAt(Block(lines), LineBreak + lines[i] + LineBreak, JoinOffset(lines, LineBreak, i))
    ensures i + 1 == |lines| ==> |Block(lines)| == JoinOffset(lines, LineBreak, i) + |LineBreak + lines[i] + LineBreak|
  {
    FramedItem(lines, LineBreak, i);
  }

  /**
    The grounding section is present for every place list, the empty one included:
    it opens with its title, names the destination and embeds the rendered list.
   */
  lemma GroundingContents(destination: string, places: seq<string>)
    ensures var g := Grounding(destination, places);
            && ContainsAt(g, LineBreak + GroundingTitle + LineBreak, 0)
            && Contains(g, destination)
            && Contains(g, LineBreak + ListRepr(places) + LineBreak)
  {
    var g := Grounding(destination, places);
    var lines := [
      GroundingTitle,
      PlacesIntro + destination + ":",
      ListRepr(places),
      "",
      "INSTRUCTION: You MUST incorporate these specific places into the itinerary ",
      "where they fit logically. You can add other famous spots, but prioritize these."];
    LineWithBreaks(lines, 0);
    LabelledLine(lines, 1, PlacesIntro, destination, ":");
    LineWithBreaks(lines, 2);
  }

  /** An empty place list still yields the grounding section, with `[]` on the line where the places go. */
  lemma EmptyPlaceList(destination: string)
    ensures Contains(Grounding(destination, []), LineBreak + "[]" + LineBreak)
  {
    GroundingContents(destination, []);
    assert ListRepr([]) == "[]";
  }

  /**
    Every trip detail occurs in the prompt, and so does every place whose `repr`
    shows it verbatim (no backslash, no ASCII control character, not both kinds of quote).
   */
  lemma PromptMentionsTrip(destination: string, duration: int, budget: string,
                           interests: seq<string>, places: seq<string>)
    ensures var p := CreateTravelPrompt(destination, duration, budget, interests, places);
            && Contains(p, destination)
            && Contains(p, IntToString(duration) + DaysSuffix)
            && Contains(p, budget)
            && Contains(p, Join(interests, InterestsSeparator))
            && Contains(p, ListRepr(places))
            && forall i :: 0 <= i < |places| && ShownVerbatim(places[i]) ==> Contains(p, places[i])
  {
    var p := CreateTravelPrompt(destination, duration, budget, interests, places);
    var d := TripDetails(destination, duration, budget, interests);
    var g := Grounding(destination, places);
    PromptSections(destination, duration, budget, interests, places);
    TripDetailsContents(destination, duration, budget, interests);
    GroundingContents(destination, places);
    assert Contains(p, d) && Contains(p, g);
    ContainsTrans(p, d, destination);
    ContainsTrans(p, d, IntToString(duration) + DaysSuffix);
    ContainsTrans(p, d, budget);
    assert Contains(p, Join(interests, InterestsSeparator)) by {
      var joined := Join(interests, InterestsSeparator);
      var line := InterestsLabel + joined;
      var k := |d| - |LineBreak + line + LineBreak|;
      ValueInLine(d, LineBreak, line, LineBreak, k);
      ValueInLine(d, InterestsLabel, joined, [], k + |LineBreak|);
      ContainsTrans(p, d, joined);
    }
    assert Contains(p, ListRepr(places)) by {
      var shown := LineBreak + ListRepr(places) + LineBreak;
      assert Contains(g, shown);
      var k :| ContainsAt(g, shown, k);
      ValueInLine(g, LineBreak, ListRepr(places), LineBreak, k);
      ContainsTrans(p, g, ListRepr(places));
    }
    forall i | 0 <= i < |places| && ShownVerbatim(places[i])
      ensures Contains(p, places[i])
    {
      ListReprContains(places, i);
      ContainsTrans(p, ListRepr(places), places[i]);
    }
  }

  /** The output format names the Morning, Lunch, Afternoon and Evening slots. */
  lemma OutputFormatSlots()
    ensures Contains(OutputFormat, MorningLabel)
    ensures Contains(OutputFormat, LunchLabel)
    ensures Contains(OutputFormat, AfternoonLabel)
    ensures Contains(OutputFormat, EveningLabel)
  {
    SlotInFormat(4, MorningLabel, " [Activity]");
    SlotInFormat(5, LunchLabel, " [Restaurant recommendation based on budget]");
    SlotInFormat(6, AfternoonLabel, " [Activity]");
    SlotInFormat(7, EveningLabel, " [Dinner or Night Activity]");
  }

  lemma SlotInFormat(i: nat, slot: string, rest: string)
    requires i < |FormatLines| && FormatLines[i] == "- " + slot + rest
    ensures Contains(OutputFormat, slot)
  {
    BlockLine(FormatLines, i);
    ContainsAtConcat("- ", slot, rest, slot, 0) by {
      ContainsPrefix(slot, "");
    }
    ContainsAtTrans(OutputFormat, FormatLines[i], slot, |LineBreak| + JoinOffset(FormatLines, LineBreak, i), 2);
  }

  /**
    Istanbul, three days, moderate budget, History and Food, with the lookup having
    found Hagia Sophia and the Spice Bazaar: the prompt carries the city, "3 days",
    the budget, "History, Food" and both places.
   */
  lemma IstanbulScenario(places: seq<string>)
    requires |places| == 2
    requires places[0] == "Hagia Sophia (Rating: 4.8)" && places[1] == "Spice Bazaar (Rating: 4.5)"
    ensures var p := CreateTravelPrompt("Istanbul", 3, "Moderate", ["History", "Food"], places);
            && Contains(p, "Istanbul")
            && Contains(p, "3 days")
            && Contains(p, "Moderate")
            && Contains(p, "History, Food")
            && Contains(p, "Hagia Sophia (Rating: 4.8)")
            && Contains(p, "Spice Bazaar (Rating: 4.5)")
  {
    PromptMentionsTrip("Istanbul", 3, "Moderate", ["History", "Food"], places);
    ThreeDays();
    HistoryAndFood();
    IstanbulPlacesVerbatim();
  }

  lemma ThreeDays()
    ensures IntToString(3) + DaysSuffix == "3 days"
  {
  }

  lemma HistoryAndFood()
    ensures Join(["History", "Food"], InterestsSeparator) == "History, Food"
  {
  }

  lemma IstanbulPlacesVerbatim()
    ensures ShownVerbatim("Hagia Sophia (Rating: 4.8)") && ShownVerbatim("Spice Bazaar (Rating: 4.5)")
  {
  }
}
