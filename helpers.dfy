/** The class-name helper that derives the item keys of the placeable machines. */
module Helpers {
  import opened Settings

  predicate IsUpper(c: char)
  {
    'A' <= c <= 'Z'
  }

  /** `str.lower` on one character, for the ASCII letters class names use. */
  function Lower(c: char): (r: char)
    ensures !IsUpper(r)
    ensures IsUpper(c) ==> r as int == c as int + 32
    ensures !IsUpper(c) ==> r == c
  {
    if IsUpper(c) then (c as int + 32) as char else c
  }

  /** The number of capitals in `s` at positions `i` and later, the first position not counted. */
  function CountCapitals(s: string, i: nat): nat
    decreases |s| - i
  {
    if i >= |s| then 0 else (if IsUpper(s[i]) && i > 0 then 1 else 0) + CountCapitals(s, i + 1)
  }

  /** The result for the characters of `s` from position `i` on: a space before each capital not at the start, all lower-cased. */
  function SpaceFrom(s: string, i: nat): string
    decreases |s| - i
  {
    if i >= |s| then []
    else (if IsUpper(s[i]) && i > 0 then [' ', Lower(s[i])] else [Lower(s[i])]) + SpaceFrom(s, i + 1)
  }

  /**
   * `cls_name_to_str`: the regular expression inserts a space before every
   * capital not at the start, then the name is lower-cased.
   */
  function ClsNameToStr(s: string): string
  {
    SpaceFrom(s, 0)
  }

  lemma {:induction false} SpaceFromFacts(s: string, i: nat)
    ensures forall k :: 0 <= k < |SpaceFrom(s, i)| ==> !IsUpper(SpaceFrom(s, i)[k])
    ensures |SpaceFrom(s, i)| == (if i >= |s| then 0 else |s| - i) + CountCapitals(s, i)
    decreases |s| - i
  {
    if i < |s| {
      SpaceFromFacts(s, i + 1);
      var head := if IsUpper(s[i]) && i > 0 then [' ', Lower(s[i])] else [Lower(s[i])];
      var tail := SpaceFrom(s, i + 1);
      assert SpaceFrom(s, i) == head + tail;
      assert forall k :: |head| <= k < |head| + |tail| ==> SpaceFrom(s, i)[k] == tail[k - |head|];
    }
  }

  /**
   * The result has no capitals, starts with a space only when the name does,
   * and is longer than the name by the number of capitals after its first
   * character.
   */
  lemma ClsNameToStrFacts(s: string)
    ensures forall i :: 0 <= i < |ClsNameToStr(s)| ==> !IsUpper(ClsNameToStr(s)[i])
    ensures |ClsNameToStr(s)| == |s| + CountCapitals(s, 0)
    ensures s != [] ==> (ClsNameToStr(s)[0] == ' ' <==> s[0] == ' ')
  {
    SpaceFromFacts(s, 0);
  }

  /** A word's characters from position `j` on, each capital preceded by a space: the word is not at the start. */
  function Inner(w: string, j: nat): string
    decreases |w| - j
  {
    if j >= |w| then []
    else (if IsUpper(w[j]) then [' ', Lower(w[j])] else [Lower(w[j])]) + Inner(w, j + 1)
  }

  lemma {:induction false} SpaceFromAppend(a: string, b: string, i: nat)
    requires i <= |a|
    ensures SpaceFrom(a + b, i) == SpaceFrom(a, i) + SpaceFrom(a + b, |a|)
    decreases |a| - i
  {
    if i < |a| {
      SpaceFromAppend(a, b, i + 1);
      assert (a + b)[i] == a[i];
    }
  }

  lemma {:induction false} SpaceFromInner(a: string, b: string, j: nat)
    requires |a| > 0
    ensures SpaceFrom(a + b, |a| + j) == Inner(b, j)
    decreases |b| - j
  {
    if j < |b| {
      SpaceFromInner(a, b, j + 1);
      var c := (a + b)[|a| + j];
      assert c == b[j];
      var head := if IsUpper(c) then [' ', Lower(c)] else [Lower(c)];
      assert SpaceFrom(a + b, |a| + j) == head + SpaceFrom(a + b, |a| + j + 1);
      assert Inner(b, j) == head + Inner(b, j + 1);
    }
  }

  /**
   * The key of a class name made of two capitalised words is the first word's
   * key followed by the second word with its capital spaced.
   */
  lemma TwoWords(a: string, b: string)
    requires |a| > 0
    ensures ClsNameToStr(a + b) == SpaceFrom(a, 0) + Inner(b, 0)
  {
    SpaceFromAppend(a, b, 0);
    SpaceFromInner(a, b, 0);
  }

  // The words the placed class names are made of, and the keys of those classes.

  lemma BurnerWord()
    ensures SpaceFrom("Burner", 0) == "burner"
  {
  }

  lemma ElectricWord()
    ensures SpaceFrom("Electric", 0) == "electric"
  {
  }

  lemma PipeWord()
    ensures SpaceFrom("Pipe", 0) == "pipe"
  {
  }

  lemma AssemblerWord()
    ensures SpaceFrom("Assembler", 0) == "assembler"
  {
  }

  lemma InletWord()
    ensures SpaceFrom("Inlet", 0) == "inlet"
  {
  }

  lemma OutletWord()
    ensures SpaceFrom("Outlet", 0) == "outlet"
  {
  }

  lemma FurnaceInnerWord()
    ensures Inner("Furnace", 0) == " furnace"
  {
  }

  lemma DrillInnerWord()
    ensures Inner("Drill", 0) == " drill"
  {
  }

  lemma InserterInnerWord()
    ensures Inner("Inserter", 0) == " inserter"
  {
  }

  lemma PumpInnerWord()
    ensures Inner("Pump", 0) == " pump"
  {
  }

  lemma BurnerFurnaceJoin()
    ensures "Burner" + "Furnace" == "BurnerFurnace" && "burner" + " furnace" == "burner furnace"
  {
  }

  lemma ElectricFurnaceJoin()
    ensures "Electric" + "Furnace" == "ElectricFurnace" && "electric" + " furnace" == "electric furnace"
  {
  }

  lemma BurnerDrillJoin()
    ensures "Burner" + "Drill" == "BurnerDrill" && "burner" + " drill" == "burner drill"
  {
  }

  lemma ElectricDrillJoin()
    ensures "Electric" + "Drill" == "ElectricDrill" && "electric" + " drill" == "electric drill"
  {
  }

  lemma BurnerInserterJoin()
    ensures "Burner" + "Inserter" == "BurnerInserter" && "burner" + " inserter" == "burner inserter"
  {
  }

  lemma ElectricInserterJoin()
    ensures "Electric" + "Inserter" == "ElectricInserter" && "electric" + " inserter" == "electric inserter"
  {
  }

  lemma InletPumpJoin()
    ensures "Inlet" + "Pump" == "InletPump" && "inlet" + " pump" == "inlet pump"
  {
  }

  lemma OutletPumpJoin()
    ensures "Outlet" + "Pump" == "OutletPump" && "outlet" + " pump" == "outlet pump"
  {
  }

  /** The classes `items_init_when_placed` creates, in the table's order. */
  const PLACED_CLASSES: seq<string> :=
    ["BurnerFurnace", "ElectricFurnace", "BurnerDrill", "ElectricDrill", "Pipe", "BurnerInserter", "ElectricInserter", "Assembler", "InletPump", "OutletPump"]

  /** The key each of those classes is stored under. */
  const PLACED_KEYS: seq<string> :=
    ["burner furnace", "electric furnace", "burner drill", "electric drill", "pipe", "burner inserter", "electric inserter", "assembler", "inlet pump", "outlet pump"]

  /** `cls_name_to_str` turns the `i`th placed class into its key. */
  lemma PlacedClassKey(i: nat)
    requires i < |PLACED_CLASSES|
    ensures |PLACED_KEYS| == |PLACED_CLASSES| && ClsNameToStr(PLACED_CLASSES[i]) == PLACED_KEYS[i]
  {
    if i == 0 {
      TwoWords("Burner", "Furnace");
      BurnerWord();
      FurnaceInnerWord();
      BurnerFurnaceJoin();
    } else if i == 1 {
      TwoWords("Electric", "Furnace");
      ElectricWord();
      FurnaceInnerWord();
      ElectricFurnaceJoin();
    } else if i == 2 {
      TwoWords("Burner", "Drill");
      BurnerWord();
      DrillInnerWord();
      BurnerDrillJoin();
    } else if i == 3 {
      TwoWords("Electric", "Drill");
      ElectricWord();
      DrillInnerWord();
      ElectricDrillJoin();
    } else if i == 4 {
      PipeWord();
    } else if i == 5 {
      TwoWords("Burner", "Inserter");
      BurnerWord();
      InserterInnerWord();
      BurnerInserterJoin();
    } else if i == 6 {
      TwoWords("Electric", "Inserter");
      ElectricWord();
      InserterInnerWord();
      ElectricInserterJoin();
    } else if i == 7 {
      AssemblerWord();
    } else if i == 8 {
      TwoWords("Inlet", "Pump");
      InletWord();
      PumpInnerWord();
      InletPumpJoin();
    } else {
      TwoWords("Outlet", "Pump");
      OutletWord();
      PumpInnerWord();
      OutletPumpJoin();
    }
  }
}
