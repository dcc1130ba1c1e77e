/**
 * The text blocks the server sends to the language model: the fixed narrator
 * instructions, the state primer that grounds the model in the structured
 * game state, and the story seed for the opening scene. All are plain
 * templates; the inputs are substituted without escaping.
 */
module Prompts {
  import opened GameModel
  import opened JsText

  /** The narrator instructions, sent as the first system message of every call. */
  const SystemPrompt: string :=
    "\nYou are the Dungeon Master for a text adventure. You must:\n"
    + "- Keep responses concise (4\U{2013}8 sentences).\n"
    + "- Always end with 2\U{2013}3 actionable choices for the player, each starting with a verb.\n"
    + "- Respect and update the game state facts provided by the system: HP, inventory, location, quest log.\n"
    + "- Never rewrite the full state; just continue the story.\n"
    + "- Avoid modern slang; use a fantasy tone.\n"
    + "Tone: immersive, descriptive, and reactive. No meta talk about tokens or models.\n"

  // The longer fixed lines of the templates are written as concatenations of
  // short literals, each of which the verifier can read character by
  // character; each constant is still one line of text.

  /** The backstory used when the character sheet leaves it blank. */
  const DefaultBackstory: string :=
    "A mysterious traveler drawn " + "by whispers of an ancient ruin " + "in the nearby forest."

  /**
   * The inventory as one line: "empty" for no items; otherwise, cut at its
   * commas, it gives back the first item and then every further item after
   * one space, in order, provided no item holds a comma.
   */
  function InventoryText(inventory: seq<string>): (r: string)
    ensures |inventory| == 0 ==> r == "empty"
    ensures |inventory| > 0 ==> r == Join(inventory, ", ")
    ensures |inventory| > 0 && (forall i :: 0 <= i < |inventory| ==> ',' !in inventory[i]) ==>
      Split(r, ',') == [inventory[0]] + PadAll(inventory[1..], " ")
  {
    if |inventory| == 0 then "empty"
    else
      CommaJoinSplits(inventory);
      Join(inventory, ", ")
  }

  /** Cutting a ", "-join at its commas, when no item holds a comma. */
  lemma CommaJoinSplits(inventory: seq<string>)
    requires |inventory| > 0
    ensures (forall i :: 0 <= i < |inventory| ==> ',' !in inventory[i]) ==>
      Split(Join(inventory, ", "), ',') == [inventory[0]] + PadAll(inventory[1..], " ")
  {
    if forall i :: 0 <= i < |inventory| ==> ',' !in inventory[i] {
      assert ", " == [','] + " ";
      SplitJoinPadded(inventory, ',', " ");
    }
  }

  /** Each quest as a bullet line "- q", in list order. */
  function Bullets(quests: seq<string>): (r: seq<string>)
    ensures |r| == |quests|
    ensures forall i :: 0 <= i < |quests| ==> r[i] == "- " + quests[i]
  {
    seq(|quests|, i requires 0 <= i < |quests| => "- " + quests[i])
  }

  /** The lines that make up the quest block: "None", or one bullet per quest. */
  function QuestLines(quests: seq<string>): (r: seq<string>)
    ensures |r| >= 1
    ensures |quests| == 0 ==> r == ["None"]
    ensures |quests| > 0 ==> |r| == |quests| && forall i :: 0 <= i < |quests| ==> r[i] == "- " + quests[i]
  {
    if |quests| == 0 then ["None"] else Bullets(quests)
  }

  /** The quest block: "None", or the bullets separated by newlines. */
  function QuestsText(quests: seq<string>): (r: string)
    ensures r == Join(QuestLines(quests), "\n")
  {
    if |quests| == 0 then "None" else Join(Bullets(quests), "\n")
  }

  /** Cut at its line breaks, the quest block gives back its lines, provided no quest holds a line break. */
  lemma QuestBlockLines(quests: seq<string>)
    requires forall i :: 0 <= i < |quests| ==> '\n' !in quests[i]
    ensures Split(QuestsText(quests), '\n') == QuestLines(quests)
  {
    var lines := QuestLines(quests);
    forall i | 0 <= i < |lines|
      ensures '\n' !in lines[i]
    {
      if |quests| > 0 {
        assert lines[i] == "- " + quests[i];
      }
    }
    SplitJoin(lines, '\n');
  }

  /**
   * The primer's lines: a blank line, the "[GAME STATE]" header,
   * "Location: <location>", "HP: <hp>", "Inventory: <inventory>", "Quests:",
   * the quest lines and a closing blank line.
   */
  function PrimerLines(state: GameState): seq<string> {
    ["", "[GAME STATE]", "Location: " + state.location, "HP: " + IntToString(state.hp),
     "Inventory: " + InventoryText(state.inventory), "Quests:"]
    + QuestLines(state.quests) + [""]
  }

  /** The fact block that grounds the model in the current location, hp, inventory and quests: its lines joined by "\n". */
  function BuildStatePrimer(state: GameState): (r: string)
    ensures r == Join(PrimerLines(state), "\n")
  {
    JoinSixThenBlock("", "[GAME STATE]", "Location: " + state.location, "HP: " + IntToString(state.hp),
                     "Inventory: " + InventoryText(state.inventory), "Quests:",
                     QuestLines(state.quests), "", "\n");
    PrimerRegroup(state.location, IntToString(state.hp), InventoryText(state.inventory),
                  QuestsText(state.quests));
    "\n" + "[GAME STATE]"
    + "\n" + "Location: " + state.location
    + "\n" + "HP: " + IntToString(state.hp)
    + "\n" + "Inventory: " + InventoryText(state.inventory)
    + "\n" + "Quests:"
    + "\n" + QuestsText(state.quests)
    + "\n"
  }

  /** The backstory line's text: the character's own backstory, or the default when it is blank. */
  function BackstoryText(backstory: string): (r: string)
    ensures r != ""
    ensures backstory != "" ==> r == backstory
    ensures backstory == "" ==> r == DefaultBackstory
  {
    if backstory != "" then backstory else DefaultBackstory
  }

  /** The end of the story seed's first line, after the hero's name and class. */
  const HeroLineEnd: string :=
    ", begins their journey " + "near the village of Emberbrook."

  /** The fixed scenery line of the story seed. */
  const SceneryLine: string :=
    "The wind carries the smell " + "of pine and old stone. " + "A dirt path splits toward "
    + "the market square and " + "the forest edge."

  /**
   * The story seed's lines: a blank line, "The hero <name>, a <className>, ...",
   * "Backstory: <backstory or default>", the scenery line and a closing blank line.
   */
  function SeedLines(character: Character): seq<string> {
    ["", "The hero " + character.name + ", a " + character.className + HeroLineEnd,
     "Backstory: " + BackstoryText(character.backstory), SceneryLine, ""]
  }

  /** The opening paragraph for a new hero near the village of Emberbrook: its lines joined by "\n". */
  function InitialStorySeed(character: Character): (r: string)
    ensures r == Join(SeedLines(character), "\n")
  {
    JoinFive("", "The hero " + character.name + ", a " + character.className + HeroLineEnd,
             "Backstory: " + BackstoryText(character.backstory), SceneryLine, "", "\n");
    SeedRegroup(character.name, character.className, HeroLineEnd,
                BackstoryText(character.backstory), SceneryLine);
    "\n" + "The hero " + character.name + ", a " + character.className + HeroLineEnd
    + "\n" + "Backstory: " + BackstoryText(character.backstory)
    + "\n" + SceneryLine
    + "\n"
  }

  predicate NoNewline(s: string) { '\n' !in s }

  predicate AllNoNewline(xs: seq<string>) {
    forall i :: 0 <= i < |xs| ==> NoNewline(xs[i])
  }

  /** Joining onto a first item puts one separator after it. */
  lemma JoinCons(x: string, ys: seq<string>, sep: string)
    requires |ys| > 0
    ensures Join([x] + ys, sep) == x + sep + Join(ys, sep)
  {
    assert ([x] + ys)[1..] == ys;
  }

  /** Five lines joined by `sep`. */
  lemma JoinFive(a: string, b: string, c: string, d: string, e: string, sep: string)
    ensures Join([a, b, c, d, e], sep) == a + sep + b + sep + c + sep + d + sep + e
  {
    JoinCons(d, [e], sep);
    JoinCons(c, [d, e], sep);
    JoinCons(b, [c, d, e], sep);
    JoinCons(a, [b, c, d, e], sep);
  }

  /** Joining one more line onto a non-empty list puts one separator before it. */
  lemma JoinSnoc(xs: seq<string>, y: string, sep: string)
    requires |xs| > 0
    ensures Join(xs + [y], sep) == Join(xs, sep) + sep + y
  {
    JoinAppend(xs, [y], sep);
  }

  /** Six lines, a block of further lines and a last line, joined by `sep`. */
  lemma JoinSixThenBlock(a: string, b: string, c: string, d: string, e: string, f: string,
                         block: seq<string>, last: string, sep: string)
    requires |block| > 0
    ensures Join([a, b, c, d, e, f] + block + [last], sep)
         == a + sep + b + sep + c + sep + d + sep + e + sep + f + sep + Join(block, sep) + sep + last
  {
    assert [a] + [b] == [a, b];
    JoinSnoc([a], b, sep);
    assert [a, b] + [c] == [a, b, c];
    JoinSnoc([a, b], c, sep);
    assert [a, b, c] + [d] == [a, b, c, d];
    JoinSnoc([a, b, c], d, sep);
    assert [a, b, c, d] + [e] == [a, b, c, d, e];
    JoinSnoc([a, b, c, d], e, sep);
    assert [a, b, c, d, e] + [f] == [a, b, c, d, e, f];
    JoinSnoc([a, b, c, d, e], f, sep);
    JoinAppend([a, b, c, d, e, f], block, sep);
    JoinSnoc([a, b, c, d, e, f] + block, last, sep);
  }

  /** The primer's template regrouped line by line. */
  lemma PrimerRegroup(loc: string, hp: string, inv: string, quests: string)
    ensures "\n" + "[GAME STATE]" + "\n" + "Location: " + loc + "\n" + "HP: " + hp
              + "\n" + "Inventory: " + inv + "\n" + "Quests:" + "\n" + quests + "\n"
         == "" + "\n" + "[GAME STATE]" + "\n" + ("Location: " + loc) + "\n" + ("HP: " + hp)
              + "\n" + ("Inventory: " + inv) + "\n" + "Quests:" + "\n" + quests + "\n" + ""
  {
  }

  /** The story seed's template regrouped line by line. */
  lemma SeedRegroup(name: string, className: string, heroEnd: string, back: string, scenery: string)
    ensures "\n" + "The hero " + name + ", a " + className + heroEnd + "\n" + "Backstory: " + back
              + "\n" + scenery + "\n"
         == "" + "\n" + ("The hero " + name + ", a " + className + heroEnd) + "\n"
              + ("Backstory: " + back) + "\n" + scenery + "\n" + ""
  {
  }

  /**
   * Read line by line, the primer is a blank line, the "[GAME STATE]" header,
   * "Location: <location>", "HP: <hp>", "Inventory: <inventory>", "Quests:",
   * the quest lines ("None" when there are none) and a closing blank line,
   * provided no substituted text holds a line break of its own.
   */
  /** No line of the primer holds a line break when no substituted field does. */
  lemma PrimerLinesAreOneLine(state: GameState)
    requires NoNewline(state.location)
    requires AllNoNewline(state.inventory)
    requires AllNoNewline(state.quests)
    ensures AllNoNewline(PrimerLines(state))
  {
    var lines := PrimerLines(state);
    IntToStringNoNewline(state.hp);
    if |state.inventory| > 0 {
      JoinAvoids(state.inventory, ", ", '\n');
    }
    var qs := QuestLines(state.quests);
    assert AllNoNewline(qs);
    forall i | 0 <= i < |lines|
      ensures NoNewline(lines[i])
    {
      if 6 <= i < 6 + |qs| {
        assert lines[i] == qs[i - 6];
      }
    }
  }

  lemma StatePrimerLines(state: GameState)
    requires NoNewline(state.location)
    requires AllNoNewline(state.inventory)
    requires AllNoNewline(state.quests)
    ensures Split(BuildStatePrimer(state), '\n') ==
      ["", "[GAME STATE]", "Location: " + state.location, "HP: " + IntToString(state.hp),
       "Inventory: " + InventoryText(state.inventory), "Quests:"]
      + QuestLines(state.quests) + [""]
  {
    PrimerLinesAreOneLine(state);
    SplitJoin(PrimerLines(state), '\n');
  }

  // None of the story seed's fixed texts holds a line break.

  lemma HeroLineEndIsOneLine() ensures NoNewline(HeroLineEnd) {
    assert forall i | 0 <= i < |", begins their journey "| :: ", begins their journey "[i] != '\n';
    assert forall i | 0 <= i < |"near the village of Emberbrook."| :: "near the village of Emberbrook."[i] != '\n';
  }

  lemma DefaultBackstoryIsOneLine() ensures NoNewline(DefaultBackstory) {
    assert forall i | 0 <= i < |"A mysterious traveler drawn "| :: "A mysterious traveler drawn "[i] != '\n';
    assert forall i | 0 <= i < |"by whispers of an ancient ruin "| :: "by whispers of an ancient ruin "[i] != '\n';
    assert forall i | 0 <= i < |"in the nearby forest."| :: "in the nearby forest."[i] != '\n';
  }

  lemma SceneryLineIsOneLine() ensures NoNewline(SceneryLine) {
    assert forall i | 0 <= i < |"The wind carries the smell "| :: "The wind carries the smell "[i] != '\n';
    assert forall i | 0 <= i < |"of pine and old stone. "| :: "of pine and old stone. "[i] != '\n';
    assert forall i | 0 <= i < |"A dirt path splits toward "| :: "A dirt path splits toward "[i] != '\n';
    assert forall i | 0 <= i < |"the market square and "| :: "the market square and "[i] != '\n';
    assert forall i | 0 <= i < |"the forest edge."| :: "the forest edge."[i] != '\n';
  }

  /**
   * Read line by line, the story seed is a blank line, "The hero <name>, a
   * <className>, ..." with both names verbatim, "Backstory: <backstory or
   * default>", the fixed scenery line and a closing blank line, provided
   * the sheet's fields hold no line break.
   */
  lemma InitialStorySeedLines(character: Character)
    requires NoNewline(character.name)
    requires NoNewline(character.className)
    requires NoNewline(character.backstory)
    ensures Split(InitialStorySeed(character), '\n') ==
      ["",
       "The hero " + character.name + ", a " + character.className + HeroLineEnd,
       "Backstory: " + BackstoryText(character.backstory),
       SceneryLine,
       ""]
  {
    var lines := SeedLines(character);
    HeroLineEndIsOneLine();
    DefaultBackstoryIsOneLine();
    SceneryLineIsOneLine();
    assert AllNoNewline(lines);
    SplitJoin(lines, '\n');
  }
}
