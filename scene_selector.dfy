/**
 * The command-line scan of source/main.cpp: the process uses the alternate
 * scene (id 1) when any element of argv, argv[0] included, is exactly "-a",
 * and scene 0 otherwise. `std::find` over [argv, argv + argc) is modelled by
 * `Find`, which returns the first matching position or argc ("end").
 */
module SceneSelector {

  /** The flag that selects the alternate scene. */
  const AlternateFlag: string := "-a"

  /** std::find: the first position holding `key`, or |args| when there is none. */
  function Find(args: seq<string>, key: string): (k: nat)
    ensures k <= |args|
    ensures k < |args| ==> args[k] == key
    ensures forall j :: 0 <= j < k ==> args[j] != key
  {
    if args == [] then 0
    else if args[0] == key then 0
    else 1 + Find(args[1..], key)
  }

  /** The scene id main passes to the application constructor. */
  function SelectScene(argv: seq<string>): (id: int)
    ensures id == 0 || id == 1
    ensures id == 1 <==> AlternateFlag in argv
  {
    if Find(argv, AlternateFlag) != |argv| then 1 else 0
  }

  /** argv[0], the program name, is inside the searched range. */
  lemma ProgramNameIsSearched(argv: seq<string>)
    requires |argv| > 0 && argv[0] == AlternateFlag
    ensures SelectScene(argv) == 1
    ensures Find(argv, AlternateFlag) == 0
  {
  }

  /** Only exact equality counts: a different spelling is not the flag. */
  lemma OnlyExactMatch(argv: seq<string>)
    requires forall j :: 0 <= j < |argv| ==> argv[j] != AlternateFlag
    ensures SelectScene(argv) == 0
  {
  }

  /** The selection depends on nothing but whether "-a" occurs. */
  lemma SelectionDependsOnlyOnPresence(a: seq<string>, b: seq<string>)
    requires (AlternateFlag in a) == (AlternateFlag in b)
    ensures SelectScene(a) == SelectScene(b)
  {
  }

  /** The distinct arguments, forgetting order and repetition. */
  function Elements(args: seq<string>): (e: set<string>)
    ensures forall x :: x in e <==> x in args
  {
    set x | x in args
  }

  /** Reordering or duplicating arguments changes nothing. */
  lemma SelectionIgnoresOrderAndMultiplicity(a: seq<string>, b: seq<string>)
    requires Elements(a) == Elements(b)
    ensures SelectScene(a) == SelectScene(b)
  {
  }

  /** Adding arguments selects scene 1 when either part holds the flag. */
  lemma SelectionOfConcatenation(a: seq<string>, b: seq<string>)
    ensures SelectScene(a + b) == if SelectScene(a) == 1 || SelectScene(b) == 1 then 1 else 0
  {
  }

  /** Find stops at the first occurrence even when the key occurs again later. */
  lemma FindFirst(args: seq<string>, key: string, k: nat)
    requires k < |args| && args[k] == key
    ensures Find(args, key) <= k
  {
  }
}
