/**
 * prompt_builder.py: `fill_prompt`, which substitutes the stripped diff for
 * every placeholder of the stripped template and writes the result. The two
 * input files are their contents (`None` when the file does not exist) and the
 * output file is an object whose contents the method sets.
 */
module PromptBuilder {
  import opened Wrappers
  import opened Strings

  /** The marker in the template that the diff replaces. */
  const Placeholder := "{{DIFF_SUMMARY}}"

  /** The `FileNotFoundError`s `fill_prompt` raises, in the order it checks. */
  datatype BuildError = MissingTemplate | MissingDiff

  /** The output file; `None` until something is written. */
  class OutputFile {
    var contents: Option<string>

    constructor (initial: Option<string>)
      ensures contents == initial
    {
      contents := initial;
    }
  }

  /**
   * The text `fill_prompt` writes, or the error it raises: the template is
   * checked first, then the diff; the result is the stripped template cut at
   * each placeholder and rejoined with the stripped diff.
   */
  function FillPrompt(template: Option<string>, diff: Option<string>): (r: Result<string, BuildError>)
    ensures template.None? ==> r == Err(MissingTemplate)
    ensures template.Some? && diff.None? ==> r == Err(MissingDiff)
    ensures r.Ok? <==> template.Some? && diff.Some?
    ensures r.Ok? ==> r.value == Join(Split(Strip(template.value), Placeholder), Strip(diff.value))
  {
    if template.None? then Err(MissingTemplate)
    else if diff.None? then Err(MissingDiff)
    else
      var t := Strip(template.value);
      ReplaceIsJoin(t, Placeholder, Strip(diff.value));
      Ok(Replace(t, Placeholder, Strip(diff.value)))
  }

  /** `fill_prompt`: writes the filled prompt, and writes nothing when a check fails. */
  method FillPromptFile(template: Option<string>, diff: Option<string>, output: OutputFile)
    returns (r: Result<string, BuildError>)
    modifies output
    ensures r == FillPrompt(template, diff)
    ensures r.Ok? ==> output.contents == Some(r.value)
    ensures r.Err? ==> unchanged(output)
  {
    if template.None? {
      return Err(MissingTemplate);
    }
    if diff.None? {
      return Err(MissingDiff);
    }
    var t := Strip(template.value);
    var d := Strip(diff.value);
    var filled := Replace(t, Placeholder, d);
    output.contents := Some(filled);
    r := Ok(filled);
  }

  /** A template without the placeholder comes out stripped and otherwise unchanged, whatever the diff. */
  lemma NoPlaceholderKeepsTemplate(template: string, diff: string)
    requires !Contains(Strip(template), Placeholder)
    ensures FillPrompt(Some(template), Some(diff)) == Ok(Strip(template))
  {
    ReplaceNoMatch(Strip(template), Placeholder, Strip(diff));
  }

  /** Substituting the placeholder for itself gives the stripped template back. */
  lemma PlaceholderForItself(template: string)
    ensures FillPrompt(Some(template), Some(Placeholder)) == Ok(Strip(template))
  {
    var p := Placeholder;
    assert p[0] == '{' && p[|p| - 1] == '}';
    RStripNoTrailingSpace(p);
    LStripNoLeadingSpace(p);
    ReplaceBySelf(Strip(template), p);
  }

  /**
   * The text between placeholders is kept: the output is the pieces of the
   * stripped template, none of which contains the placeholder, joined by the
   * stripped diff.
   */
  lemma PiecesKept(template: string, diff: string)
    ensures var ps := Split(Strip(template), Placeholder);
      && FillPrompt(Some(template), Some(diff)) == Ok(Join(ps, Strip(diff)))
      && Join(ps, Placeholder) == Strip(template)
      && forall k :: 0 <= k < |ps| ==> !Contains(ps[k], Placeholder)
  {
    SplitJoin(Strip(template), Placeholder);
    SplitPiecesFree(Strip(template), Placeholder);
  }

  /** A brace before a `{{`-marker, replaced by the marker without its first brace, rebuilds the marker. */
  lemma BraceRebuildsMarker(p: string)
    requires |p| >= 3 && p[0] == '{' && p[1] == '{' && p[2] != '{'
    ensures Replace("{" + p, p, p[1..]) == p
  {
    var t := "{" + p;
    var d := p[1..];
    assert t[..|p|][2] != p[2];
    assert t[1..] == p;
    assert p[|p|..] == "";
    calc {
      Replace(t, p, d);
      [t[0]] + Replace(t[1..], p, d);
      [t[0]] + (d + Replace(p[|p|..], p, d));
      "{" + d;
      p;
    }
  }

  /** A string shorter than the placeholder cannot contain it. */
  lemma ShorterLacksPlaceholder(s: string)
    requires |s| < |Placeholder|
    ensures !Contains(s, Placeholder)
  {
  }

  /**
   * A diff free of the placeholder does not guarantee an output free of it:
   * a brace left in front of a placeholder joins the braces of the diff.
   */
  lemma PlaceholderCanReappear()
    ensures !Contains(Strip(Placeholder[1..]), Placeholder)
    ensures FillPrompt(Some("{" + Placeholder), Some(Placeholder[1..])) == Ok(Placeholder)
  {
    var p := Placeholder;
    var d := p[1..];
    var t := "{" + p;
    assert d[0] == '{' && d[|d| - 1] == '}';
    RStripNoTrailingSpace(d);
    LStripNoLeadingSpace(d);
    ShorterLacksPlaceholder(d);
    assert t[0] == '{' && t[|t| - 1] == '}';
    RStripNoTrailingSpace(t);
    LStripNoLeadingSpace(t);
    BraceRebuildsMarker(p);
  }
}
