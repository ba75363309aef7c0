/**
 * diff_profiler.py: the size category of the staged diff and the runtime hint
 * (context window and batch size) recommended for each category.
 */
module DiffProfiler {
  import opened Wrappers
  import opened Strings

  /** The nine categories, in their declared order. */
  datatype DiffCategory =
    | VeryTiny | Tiny | VerySmall | Small | Medium | Large | VeryLarge | Huge | VeryHuge

  /** Position of a category in the declared order. */
  function Rank(c: DiffCategory): nat {
    match c
    case VeryTiny => 0
    case Tiny => 1
    case VerySmall => 2
    case Small => 3
    case Medium => 4
    case Large => 5
    case VeryLarge => 6
    case Huge => 7
    case VeryHuge => 8
  }

  /** The string literal the source uses for a category. */
  function Name(c: DiffCategory): string {
    match c
    case VeryTiny => "very_tiny"
    case Tiny => "tiny"
    case VerySmall => "very_small"
    case Small => "small"
    case Medium => "medium"
    case Large => "large"
    case VeryLarge => "very_large"
    case Huge => "huge"
    case VeryHuge => "very_huge"
  }

  /** `{"n_ctx": ..., "n_batch": ...}`. */
  datatype RuntimeHint = RuntimeHint(nCtx: int, nBatch: int)

  /** The table inside `get_runtime_hint`. */
  const HintTable: map<string, RuntimeHint> := map[
    "very_tiny" := RuntimeHint(128, 16),
    "tiny" := RuntimeHint(128, 24),
    "very_small" := RuntimeHint(192, 32),
    "small" := RuntimeHint(256, 42),
    "medium" := RuntimeHint(384, 50),
    "large" := RuntimeHint(512, 64),
    "very_large" := RuntimeHint(768, 80),
    "huge" := RuntimeHint(1024, 90),
    "very_huge" := RuntimeHint(2048, 100)
  ]

  /** The default of `table.get(category, ...)`. */
  const FallbackHint := RuntimeHint(256, 42)

  /** `classify_diff`: first matching threshold wins. */
  function ClassifyDiff(lines: int, chars: int): DiffCategory {
    if lines < 5 && chars < 200 then VeryTiny
    else if lines < 10 && chars < 400 then Tiny
    else if lines < 20 then VerySmall
    else if lines < 40 then Small
    else if lines < 80 then Medium
    else if lines < 160 then Large
    else if lines < 300 then VeryLarge
    else if lines < 500 then Huge
    else VeryHuge
  }

  /** `get_runtime_hint`, looked up by the category's name. */
  function GetRuntimeHint(category: string): RuntimeHint {
    if category in HintTable then HintTable[category] else FallbackHint
  }

  datatype DiffStats = DiffStats(lines: nat, chars: nat)

  /**
   * `get_git_diff_stats` over the decoded output of `git diff --cached`;
   * `None` stands for git exiting with a non-zero status.
   */
  function GetDiffStats(diffOutput: Option<string>): (st: DiffStats)
    ensures diffOutput.None? ==> st == DiffStats(0, 0)
    ensures diffOutput.Some? ==>
      && st.chars == |diffOutput.value|
      && st.lines == Count(diffOutput.value, '\n')
      && st.lines <= st.chars
      && (st.lines == 0 <==> '\n' !in diffOutput.value)
  {
    match diffOutput
    case None => DiffStats(0, 0)
    case Some(text) => DiffStats(Count(text, '\n'), |text|)
  }

  datatype DiffProfile = DiffProfile(
    category: DiffCategory, linesChanged: int, charsChanged: int, runtimeHint: RuntimeHint)

  /** `classify_diff_size`. */
  function ClassifyDiffSize(diffOutput: Option<string>): DiffProfile {
    var st := GetDiffStats(diffOutput);
    var category := ClassifyDiff(st.lines, st.chars);
    DiffProfile(category, st.lines, st.chars, GetRuntimeHint(Name(category)))
  }

  // ---------------------------------------------------------------------------
  // Properties of the classifier

  /** Both bounds of the first tier are strict and both are needed. */
  lemma VeryTinyIff(lines: int, chars: int)
    ensures ClassifyDiff(lines, chars) == VeryTiny <==> lines < 5 && chars < 200
  {
  }

  /** One line more than the first tier allows lands in `tiny`. */
  lemma FiveLinesIsTiny(chars: int)
    requires chars < 200
    ensures ClassifyDiff(5, chars) == Tiny
    ensures ClassifyDiff(4, chars) == VeryTiny
  {
  }

  /** The two lowest tiers need both conditions; otherwise only lines decide. */
  lemma CharGatedTiers(lines: int, chars: int)
    ensures Rank(ClassifyDiff(lines, chars)) <= 1 <==>
      (lines < 5 && chars < 200) || (lines < 10 && chars < 400)
    ensures lines < 20 && !(lines < 10 && chars < 400) ==> ClassifyDiff(lines, chars) == VerySmall
  {
  }

  /** A few lines of very long text fall through to `very_small`. */
  lemma DenseSmallDiff()
    ensures ClassifyDiff(3, 500) == VerySmall
  {
  }

  /** From ten lines on, characters no longer matter. */
  lemma LinesDecideFromTen(lines: int, chars1: int, chars2: int)
    requires lines >= 10
    ensures ClassifyDiff(lines, chars1) == ClassifyDiff(lines, chars2)
  {
  }

  /** More lines never give a smaller category. */
  lemma MonotoneInLines(lines1: int, lines2: int, chars: int)
    requires lines1 <= lines2
    ensures Rank(ClassifyDiff(lines1, chars)) <= Rank(ClassifyDiff(lines2, chars))
  {
  }

  /** More characters never give a smaller category. */
  lemma MonotoneInChars(lines: int, chars1: int, chars2: int)
    requires chars1 <= chars2
    ensures Rank(ClassifyDiff(lines, chars1)) <= Rank(ClassifyDiff(lines, chars2))
  {
  }

  /** `very_huge` is exactly "at least 500 lines". */
  lemma VeryHugeIff(lines: int, chars: int)
    ensures ClassifyDiff(lines, chars) == VeryHuge <==> lines >= 500
  {
  }

  // ---------------------------------------------------------------------------
  // Properties of the runtime hint table

  /** The table has exactly one entry per category, under the category's name. */
  lemma HintTableKeys()
    ensures HintTable.Keys == set c: DiffCategory | true :: Name(c)
    ensures forall c1, c2 :: Name(c1) == Name(c2) ==> c1 == c2
  {
    forall k | k in HintTable.Keys ensures k in set c: DiffCategory | true :: Name(c) {
      if k == "very_tiny" { assert k == Name(VeryTiny); }
      else if k == "tiny" { assert k == Name(Tiny); }
      else if k == "very_small" { assert k == Name(VerySmall); }
      else if k == "small" { assert k == Name(Small); }
      else if k == "medium" { assert k == Name(Medium); }
      else if k == "large" { assert k == Name(Large); }
      else if k == "very_large" { assert k == Name(VeryLarge); }
      else if k == "huge" { assert k == Name(Huge); }
      else { assert k == Name(VeryHuge); }
    }
  }

  /** Every category has its own entry, so the fallback is never used for one. */
  lemma HintDefined(c: DiffCategory)
    ensures Name(c) in HintTable
    ensures GetRuntimeHint(Name(c)) == HintTable[Name(c)]
  {
  }

  /** Along the declared order `n_ctx` never falls and `n_batch` strictly grows. */
  lemma HintsOrdered(c1: DiffCategory, c2: DiffCategory)
    requires Rank(c1) < Rank(c2)
    ensures GetRuntimeHint(Name(c1)).nCtx <= GetRuntimeHint(Name(c2)).nCtx
    ensures GetRuntimeHint(Name(c1)).nBatch < GetRuntimeHint(Name(c2)).nBatch
    ensures GetRuntimeHint(Name(c1)).nCtx > 0 && GetRuntimeHint(Name(c1)).nBatch > 0
  {
  }

  /** An unknown category name gets the `small` parameters. */
  lemma UnknownCategoryFallsBack(category: string)
    requires category !in HintTable
    ensures GetRuntimeHint(category) == HintTable[Name(Small)]
    ensures GetRuntimeHint(category) == RuntimeHint(256, 42)
  {
  }

  // ---------------------------------------------------------------------------
  // Properties of the composition

  /** The profile's hint is the table entry of the category of its own stats. */
  lemma ProfileConsistent(diffOutput: Option<string>)
    ensures var p := ClassifyDiffSize(diffOutput);
      && p.category == ClassifyDiff(p.linesChanged, p.charsChanged)
      && p.runtimeHint == HintTable[Name(p.category)]
      && p.linesChanged == GetDiffStats(diffOutput).lines
      && p.charsChanged == GetDiffStats(diffOutput).chars
  {
  }

  /** A failed `git diff` counts as an empty diff: `very_tiny`. */
  lemma FailedDiffIsVeryTiny()
    ensures ClassifyDiffSize(None) == DiffProfile(VeryTiny, 0, 0, RuntimeHint(128, 16))
  {
  }

  /** Any text shorter than 200 characters with at most four newlines is `very_tiny`. */
  lemma ShortTextIsVeryTiny(text: string)
    requires |text| < 200 && Count(text, '\n') < 5
    ensures ClassifyDiffSize(Some(text)).category == VeryTiny
    ensures ClassifyDiffSize(Some(text)).runtimeHint == RuntimeHint(128, 16)
  {
    StatsOfText(text);
    VeryTinyIff(Count(text, '\n'), |text|);
    VeryTinyHint();
  }

  /** The statistics of a captured diff: its newline count and its length. */
  lemma StatsOfText(text: string)
    ensures GetDiffStats(Some(text)) == DiffStats(Count(text, '\n'), |text|)
  {
  }

  /** The hint of the smallest category. */
  lemma VeryTinyHint()
    ensures GetRuntimeHint(Name(VeryTiny)) == RuntimeHint(128, 16)
  {
  }

  /** One sample per category, from line counts and lengths spread over the tiers. */
  lemma ClassifyExamples()
    ensures ClassifyDiff(2, 100) == VeryTiny && ClassifyDiff(8, 300) == Tiny
    ensures ClassifyDiff(15, 500) == VerySmall && ClassifyDiff(30, 1000) == Small
    ensures ClassifyDiff(60, 2000) == Medium && ClassifyDiff(140, 3000) == Large
    ensures ClassifyDiff(250, 6000) == VeryLarge && ClassifyDiff(450, 9000) == Huge
    ensures ClassifyDiff(600, 12000) == VeryHuge
  {
  }

  /** 450 lines are `huge`, with context 1024 and batch 90. */
  lemma FourHundredFiftyLines(chars: int)
    ensures ClassifyDiff(450, chars) == Huge
    ensures GetRuntimeHint(Name(ClassifyDiff(450, chars))) == RuntimeHint(1024, 90)
  {
  }
}
