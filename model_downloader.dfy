/**
 * model_downloader.py: the interactive choice of Phi-3 quantizations, with the
 * typed answer, the files already on disk and the downloads that fail given as
 * parameters instead of `input()`, the file system and the network.
 */
module ModelDownloader {
  import opened Wrappers
  import opened Strings

  /** One item of the ordered `models_dict`: a menu label and its download URL. */
  datatype ModelEntry = ModelEntry(key: string, url: string)

  const RepoUrl := "https://huggingface.co/bartowski/Phi-3-mini-4k-instruct-GGUF/resolve/main"

  /** The GGUF file name of a Phi-3 quantization. */
  function ModelFileName(quant: string): string {
    "Phi-3-mini-4k-instruct-" + quant + ".gguf"
  }

  const DownloadQuery := "download=true"

  function Phi3Url(quant: string): string {
    RepoUrl + "/" + ModelFileName(quant) + "?" + DownloadQuery
  }

  /** A menu item: the label is the quantization name, a space and a description. */
  function CatalogueEntry(quant: string, description: string): ModelEntry {
    ModelEntry(quant + " " + description, Phi3Url(quant))
  }

  /** PHI3_MODELS, in its declared order. */
  const Phi3Models: seq<ModelEntry> := [
    CatalogueEntry("IQ3_S", "(Low RAM, ~1.68GB, good quality)"),
    CatalogueEntry("Q4_K_M", "(Medium RAM, ~2.39GB, very good quality)"),
    CatalogueEntry("Q6_K", "(Higher RAM, ~3.13GB, best quality)")
  ]

  /** The quantization name each catalogue label starts with. */
  const Phi3Quants: seq<string> := ["IQ3_S", "Q4_K_M", "Q6_K"]

  /** The default of the `default_selection` parameter. */
  const DefaultSelection: seq<string> := ["IQ3_S", "Q4_K_M"]

  /** `list(models_dict.keys())`. */
  function Keys(models: seq<ModelEntry>): (keys: seq<string>)
    ensures |keys| == |models|
    ensures forall i :: 0 <= i < |models| ==> keys[i] == models[i].key
  {
    seq(|models|, i requires 0 <= i < |models| => models[i].key)
  }

  /** `any(d in k for d in default_selection)`. */
  predicate IsDefault(key: string, defaults: seq<string>) {
    exists d :: d in defaults && Contains(key, d)
  }

  /** `[i for i, k in enumerate(keys) if any(d in k for d in default_selection)]`. */
  function DefaultIndices(keys: seq<string>, defaults: seq<string>): (r: seq<nat>)
    ensures forall j :: 0 <= j < |r| ==> r[j] < |keys| && IsDefault(keys[r[j]], defaults)
    ensures forall i :: 0 <= i < |keys| && IsDefault(keys[i], defaults) ==> i in r
    ensures forall j, k :: 0 <= j < k < |r| ==> r[j] < r[k]
    decreases |keys|
  {
    if |keys| == 0 then []
    else
      var n := |keys| - 1;
      DefaultIndices(keys[..n], defaults) + (if IsDefault(keys[n], defaults) then [n] else [])
  }

  /**
   * `key.split()[0]` succeeds for every key. The menu loop evaluates it for
   * each key before the answer is read, so one key without a word raises
   * IndexError before any selection or download.
   */
  predicate KeysNamed(keys: seq<string>) {
    forall i :: 0 <= i < |keys| ==> FirstWord(keys[i]).Some?
  }

  /** Why the selector exits (or, for NoQuantName, raises IndexError). */
  datatype SelectError = InvalidInput | NothingSelected | NoQuantName

  /** A parsed piece that names a menu position in `1..count`. */
  predicate InRange(v: Option<int>, count: nat) {
    v.Some? && 1 <= v.value <= count
  }

  /**
   * The range check on `[int(i.strip()) - 1 for i in pieces]`, given the
   * result of `int` for each piece (`None` where it raises): every piece must
   * be an integer between 1 and `count`, or the answer is rejected.
   */
  function ParsePositions(values: seq<Option<int>>, count: nat): (r: Result<seq<nat>, SelectError>)
    ensures r.Ok? <==> forall j :: 0 <= j < |values| ==> InRange(values[j], count)
    ensures r.Ok? ==> |r.value| == |values|
    ensures r.Ok? ==> forall j :: 0 <= j < |r.value| ==> r.value[j] < count && values[j] == Some(r.value[j] + 1)
    ensures r.Err? ==> r.error == InvalidInput
  {
    if forall j :: 0 <= j < |values| ==> InRange(values[j], count)
    then Ok(seq(|values|, j requires 0 <= j < |values| && InRange(values[j], count) => (values[j].value - 1) as nat))
    else Err(InvalidInput)
  }

  /** `int(piece.strip())` for every comma-separated piece of the answer. */
  function ParsedPieces(input: string): (vs: seq<Option<int>>)
    ensures |vs| == |Split(input, ",")|
    ensures forall j :: 0 <= j < |vs| ==> vs[j] == ParseInt(Split(input, ",")[j])
  {
    var pieces := Split(input, ",");
    seq(|pieces|, j requires 0 <= j < |pieces| => ParseInt(pieces[j]))
  }

  /** Manual input: the comma-separated pieces of the answer, as menu positions. */
  function ParseSelection(input: string, count: nat): Result<seq<nat>, SelectError> {
    ParsePositions(ParsedPieces(input), count)
  }

  /** The positions the answer selects: the defaults for a blank answer, else the typed ones. */
  function SelectIndices(keys: seq<string>, defaults: seq<string>, userInput: string): (r: Result<seq<nat>, SelectError>)
    ensures r.Ok? ==> |r.value| >= 1 && forall j :: 0 <= j < |r.value| ==> r.value[j] < |keys|
    ensures r.Err? ==> r.error == InvalidInput || r.error == NothingSelected
  {
    var input := Strip(userInput);
    var chosen := if input == "" then Ok(DefaultIndices(keys, defaults)) else ParseSelection(input, |keys|);
    match chosen
    case Err(e) => Err(e)
    case Ok(ix) => if |ix| == 0 then Err(NothingSelected) else Ok(ix)
  }

  /**
   * The outcome of the selector: IndexError when some key has no word, else
   * the selection error, else the first word of the first selected key, in
   * typed order.
   */
  function SelectedQuant(keys: seq<string>, defaults: seq<string>, userInput: string): (r: Result<string, SelectError>)
    ensures r == Err(NoQuantName) <==> !KeysNamed(keys)
    ensures KeysNamed(keys) ==> (r.Ok? <==> SelectIndices(keys, defaults, userInput).Ok?)
    ensures KeysNamed(keys) && SelectIndices(keys, defaults, userInput).Err? ==>
      r == Err(SelectIndices(keys, defaults, userInput).error)
    ensures SelectIndices(keys, defaults, userInput).Ok? && r.Err? ==> r.error == NoQuantName
    ensures r.Ok? ==> SelectIndices(keys, defaults, userInput).Ok?
    ensures r.Ok? ==> FirstWord(keys[SelectIndices(keys, defaults, userInput).value[0]]) == Some(r.value)
  {
    if !KeysNamed(keys) then Err(NoQuantName)
    else
      match SelectIndices(keys, defaults, userInput)
      case Err(e) => Err(e)
      case Ok(ix) => Ok(FirstWord(keys[ix[0]]).value)
  }

  function Last(ps: seq<string>): string
    requires |ps| >= 1
  {
    ps[|ps| - 1]
  }

  /** `url.split("/")[-1].split("?")[0]`. */
  function FileName(url: string): string {
    Split(Last(Split(url, "/")), "?")[0]
  }

  /** What one pass of the download loop does for one selected model. */
  datatype DownloadAction =
    | Skip(filename: string)
    | Fetch(url: string, filename: string, saved: bool)

  predicate ValidSelection(models: seq<ModelEntry>, selected: seq<nat>) {
    forall j :: 0 <= j < |selected| ==> selected[j] < |models|
  }

  /**
   * The `for s in selected` loop over a prefix of the selection: the actions
   * taken and the file names present afterwards. A file already present is
   * skipped; a fetch whose URL is in `failing` saves nothing.
   */
  function Plan(models: seq<ModelEntry>, selected: seq<nat>, existing: set<string>, failing: set<string>)
    : (r: (seq<DownloadAction>, set<string>))
    requires ValidSelection(models, selected)
    ensures |r.0| == |selected|
    ensures existing <= r.1
    ensures forall j :: 0 <= j < |r.0| && r.0[j].Fetch? && r.0[j].saved ==> r.0[j].filename in r.1
    decreases |selected|
  {
    if |selected| == 0 then ([], existing)
    else
      var prev := Plan(models, selected[..|selected| - 1], existing, failing);
      var entry := models[selected[|selected| - 1]];
      var name := FileName(entry.url);
      if name in prev.1 then (prev.0 + [Skip(name)], prev.1)
      else if entry.url in failing then (prev.0 + [Fetch(entry.url, name, false)], prev.1)
      else (prev.0 + [Fetch(entry.url, name, true)], prev.1 + {name})
  }

  /** The download loop of `interactive_model_selector`. */
  method DownloadSelected(models: seq<ModelEntry>, selected: seq<nat>, existing: set<string>, failing: set<string>)
    returns (actions: seq<DownloadAction>, present: set<string>)
    requires ValidSelection(models, selected)
    ensures (actions, present) == Plan(models, selected, existing, failing)
  {
    actions, present := [], existing;
    var i := 0;
    while i < |selected|
      invariant 0 <= i <= |selected|
      invariant (actions, present) == Plan(models, selected[..i], existing, failing)
    {
      var url := models[selected[i]].url;
      var filename := FileName(url);
      assert selected[..i + 1][..i] == selected[..i];
      if filename in present {
        actions := actions + [Skip(filename)];
      } else if url in failing {
        actions := actions + [Fetch(url, filename, false)];
      } else {
        actions := actions + [Fetch(url, filename, true)];
        present := present + {filename};
      }
      i := i + 1;
    }
    assert selected[..|selected|] == selected;
  }

  /**
   * The menu loop: `key.split()[0]` for every key in order, stopping at the
   * first key without a word (where Python raises IndexError).
   */
  method MenuKeysNamed(keys: seq<string>) returns (named: bool)
    ensures named <==> KeysNamed(keys)
  {
    var i := 0;
    while i < |keys|
      invariant 0 <= i <= |keys|
      invariant forall j :: 0 <= j < i ==> FirstWord(keys[j]).Some?
    {
      if FirstWord(keys[i]).None? {
        return false;
      }
      i := i + 1;
    }
    return true;
  }

  /**
   * `interactive_model_selector` minus the printing: the downloads it performs
   * and the quant it returns, or why it exits.
   */
  method InteractiveModelSelector(models: seq<ModelEntry>, defaults: seq<string>, userInput: string,
                                  existing: set<string>, failing: set<string>)
    returns (actions: seq<DownloadAction>, quant: Result<string, SelectError>)
    ensures quant == SelectedQuant(Keys(models), defaults, userInput)
    ensures !KeysNamed(Keys(models)) ==> actions == []
    ensures SelectIndices(Keys(models), defaults, userInput).Err? ==> actions == []
    ensures KeysNamed(Keys(models)) && SelectIndices(Keys(models), defaults, userInput).Ok? ==>
      var selected := SelectIndices(Keys(models), defaults, userInput).value;
      ValidSelection(models, selected) && actions == Plan(models, selected, existing, failing).0
  {
    var keys := Keys(models);
    var named := MenuKeysNamed(keys);
    if !named {
      actions, quant := [], Err(NoQuantName);
      return;
    }
    var chosen := SelectIndices(keys, defaults, userInput);
    if chosen.Err? {
      actions, quant := [], Err(chosen.error);
      return;
    }
    var selected := chosen.value;
    var present;
    actions, present := DownloadSelected(models, selected, existing, failing);
    quant := Ok(FirstWord(keys[selected[0]]).value);
  }

  // ---------------------------------------------------------------------------
  // Properties of the download loop

  /** A file that is already on disk is never fetched. */
  lemma {:induction false} ExistingNeverFetched(models: seq<ModelEntry>, selected: seq<nat>,
                                                existing: set<string>, failing: set<string>, name: string)
    requires ValidSelection(models, selected)
    requires name in existing
    ensures forall j :: 0 <= j < |selected| ==>
      (Plan(models, selected, existing, failing).0[j].Fetch? ==> Plan(models, selected, existing, failing).0[j].filename != name)
    decreases |selected|
  {
    if |selected| > 0 {
      var n := |selected| - 1;
      ExistingNeverFetched(models, selected[..n], existing, failing, name);
      var prev := Plan(models, selected[..n], existing, failing);
      var acts := Plan(models, selected, existing, failing).0;
      forall j | 0 <= j < n ensures acts[j] == prev.0[j] && selected[..n][j] == selected[j] {
      }
    }
  }

  /** After a file has been saved, every later action on that file is a skip. */
  predicate NoRefetch(acts: seq<DownloadAction>) {
    forall i, j :: 0 <= i < j < |acts| && acts[i].Fetch? && acts[i].saved && acts[j].filename == acts[i].filename
      ==> acts[j].Skip?
  }

  /** Once a file has been saved, later selections of it are skipped. */
  lemma {:induction false} SavedThenSkipped(models: seq<ModelEntry>, selected: seq<nat>,
                                            existing: set<string>, failing: set<string>)
    requires ValidSelection(models, selected)
    ensures NoRefetch(Plan(models, selected, existing, failing).0)
    decreases |selected|
  {
    if |selected| > 0 {
      var n := |selected| - 1;
      SavedThenSkipped(models, selected[..n], existing, failing);
      var prev := Plan(models, selected[..n], existing, failing);
      var acts := Plan(models, selected, existing, failing).0;
      var name := FileName(models[selected[n]].url);
      assert |acts| == n + 1 && acts[..n] == prev.0;
      assert acts[n].filename == name && (acts[n].Fetch? ==> name !in prev.1);
      forall i, j | 0 <= i < j < |acts| && acts[i].Fetch? && acts[i].saved && acts[j].filename == acts[i].filename
        ensures acts[j].Skip?
      {
        assert acts[i] == prev.0[i];
        if j < n {
          assert acts[j] == prev.0[j];
        } else {
          assert prev.0[i].filename in prev.1;
        }
      }
    }
  }

  // ---------------------------------------------------------------------------
  // Properties of the catalogue

  lemma TakeWordUntilSpace(w: string, t: string)
    requires forall i :: 0 <= i < |w| ==> !IsSpace(w[i])
    requires t == [] || IsSpace(t[0])
    ensures TakeWord(w + t) == w
  {
    var s := w + t;
    var r := TakeWord(s);
    assert forall i :: 0 <= i < |w| ==> s[i] == w[i];
    assert |s| > |w| ==> s[|w|] == t[0];
    assert forall i :: 0 <= i < |r| ==> r[i] == s[i];
    assert |r| == |w|;
    assert s[..|w|] == w;
  }

  /** A label made of a word, a space and a description has that word as its quant. */
  lemma FirstWordOfLabel(w: string, rest: string)
    requires w != [] && forall i :: 0 <= i < |w| ==> !IsSpace(w[i])
    ensures FirstWord(w + " " + rest) == Some(w)
  {
    var s := w + " " + rest;
    LStripNoLeadingSpace(s);
    assert s == w + (" " + rest);
    TakeWordUntilSpace(w, " " + rest);
  }

  /** The file name is the last path segment of the URL, without its query. */
  lemma FileNameOfUrl(dir: string, name: string, query: string)
    requires '/' !in name && '/' !in query && '?' !in name
    ensures FileName(dir + "/" + name + "?" + query) == name
  {
    var rest := name + "?" + query;
    assert '/' !in rest;
    assert dir + "/" + name + "?" + query == dir + "/" + rest;
    SplitAroundSeparator(dir, "/", rest);
    MissingCharNotContained(rest, "/", '/');
    SplitNoMatch(rest, "/");
    assert Last(Split(dir + "/" + rest, "/")) == rest;
    SplitAroundSeparator(name, "?", query);
    MissingCharNotContained(name, "?", '?');
    SplitNoMatch(name, "?");
  }

  /** A catalogue URL's file name is the file the model path names for its quant. */
  lemma Phi3FileName(quant: string)
    requires '/' !in quant && '?' !in quant
    ensures FileName(Phi3Url(quant)) == ModelFileName(quant)
  {
    FileNameOfUrl(RepoUrl, ModelFileName(quant), DownloadQuery);
  }

  /** Each label's first word is its quantization name. */
  lemma LabelQuant(i: nat)
    requires i < |Phi3Models|
    ensures FirstWord(Phi3Models[i].key) == Some(Phi3Quants[i])
  {
    if i == 0 {
      FirstWordOfLabel("IQ3_S", "(Low RAM, ~1.68GB, good quality)");
    } else if i == 1 {
      FirstWordOfLabel("Q4_K_M", "(Medium RAM, ~2.39GB, very good quality)");
    } else {
      FirstWordOfLabel("Q6_K", "(Higher RAM, ~3.13GB, best quality)");
    }
  }

  /** Every catalogue label has a first word, so the menu loop never raises. */
  lemma CatalogueNamed()
    ensures KeysNamed(Keys(Phi3Models))
  {
    forall i | 0 <= i < |Phi3Models| ensures FirstWord(Phi3Models[i].key).Some? {
      LabelQuant(i);
    }
    NamedEntries(Phi3Models);
  }

  /** Keys are named when every entry's label has a first word. */
  lemma NamedEntries(models: seq<ModelEntry>)
    requires forall i :: 0 <= i < |models| ==> FirstWord(models[i].key).Some?
    ensures KeysNamed(Keys(models))
  {
  }

  /** The file a catalogue entry downloads is the model file of its label's quant. */
  lemma CatalogueConsistent(i: nat)
    requires i < |Phi3Models|
    ensures FileName(Phi3Models[i].url) == ModelFileName(Phi3Quants[i])
  {
    assert Phi3Models[i].url == Phi3Url(Phi3Quants[i]);
    Phi3FileName(Phi3Quants[i]);
  }

  // ---------------------------------------------------------------------------
  // Properties of the selection, on the Phi-3 catalogue

  /** A catalogue label contains its own quantization name, at its start. */
  lemma LabelContainsQuant(quant: string, description: string)
    ensures Contains(CatalogueEntry(quant, description).key, quant)
  {
    assert OccursAt(CatalogueEntry(quant, description).key, quant, 0);
  }

  /** The default selection marks the IQ3_S and Q4_K_M entries. */
  lemma DefaultMarked()
    ensures IsDefault(Phi3Models[0].key, DefaultSelection)
    ensures IsDefault(Phi3Models[1].key, DefaultSelection)
  {
    LabelContainsQuant("IQ3_S", "(Low RAM, ~1.68GB, good quality)");
    assert DefaultSelection[0] == "IQ3_S";
    LabelContainsQuant("Q4_K_M", "(Medium RAM, ~2.39GB, very good quality)");
    assert DefaultSelection[1] == "Q4_K_M";
  }

  /** The Q6_K label contains neither default name. */
  lemma DefaultUnmarked()
    ensures !IsDefault(Phi3Models[2].key, DefaultSelection)
  {
    ThirdLabelLacks('I');
    ThirdLabelLacks('4');
    forall d | d in DefaultSelection ensures !Contains(Phi3Models[2].key, d) {
      if d == "IQ3_S" {
        MissingCharNotContained(Phi3Models[2].key, d, 'I');
      } else {
        assert d == "Q4_K_M";
        MissingCharNotContained(Phi3Models[2].key, d, '4');
      }
    }
  }

  /** Neither `I` nor `4` occurs in the Q6_K label. */
  lemma ThirdLabelLacks(c: char)
    requires c == 'I' || c == '4'
    ensures c !in Phi3Models[2].key
  {
    var description := "(Higher RAM, ~3.13GB, best quality)";
    assert Phi3Models[2] == CatalogueEntry("Q6_K", description);
    LabelLacksChar("Q6_K", description, c);
  }

  /** A character missing from a label's quant and description is missing from the label. */
  lemma LabelLacksChar(quant: string, description: string, c: char)
    requires c !in quant && c != ' ' && c !in description
    ensures c !in CatalogueEntry(quant, description).key
  {
  }

  /** On the catalogue, the default positions are exactly 0 and 1, in that order. */
  lemma DefaultPositions()
    ensures DefaultIndices(Keys(Phi3Models), DefaultSelection) == [0, 1]
  {
    DefaultMarked();
    DefaultUnmarked();
    FirstTwoMarked(Keys(Phi3Models), DefaultSelection);
  }

  /** Of three keys, when only the first two are marked, the default positions are 0 and 1. */
  lemma FirstTwoMarked(keys: seq<string>, defaults: seq<string>)
    requires |keys| == 3
    requires IsDefault(keys[0], defaults) && IsDefault(keys[1], defaults) && !IsDefault(keys[2], defaults)
    ensures DefaultIndices(keys, defaults) == [0, 1]
  {
    var one, two := keys[..1], keys[..2];
    assert one[..0] == [] && one[0] == keys[0];
    assert DefaultIndices(one, defaults) == [0];
    assert two[..1] == one && two[1] == keys[1];
    assert DefaultIndices(two, defaults) == DefaultIndices(one, defaults) + [1];
  }

  /** A blank answer selects the defaults and returns IQ3_S, the first of them. */
  lemma BlankAnswerTakesDefaults(userInput: string)
    requires Strip(userInput) == ""
    ensures SelectIndices(Keys(Phi3Models), DefaultSelection, userInput) == Ok([0, 1])
    ensures SelectedQuant(Keys(Phi3Models), DefaultSelection, userInput) == Ok("IQ3_S")
  {
    DefaultPositions();
    CatalogueNamed();
    LabelQuant(0);
  }

  /** A lone digit is parsed as its value, with nothing to strip. */
  lemma DigitPiece(c: char)
    requires IsDigit(c)
    ensures Split([c], ",") == [[c]]
    ensures Strip([c]) == [c]
    ensures ParseInt([c]) == Some(DigitValue(c))
  {
    MissingCharNotContained([c], ",", ',');
    SplitNoMatch([c], ",");
    RStripNoTrailingSpace([c]);
    LStripNoLeadingSpace([c]);
    assert Strip([c]) == [c];
    assert [c][..0] == [];
    assert DigitsValue([c]) == DigitValue(c);
    assert ParseLiteral([c]) == Some(DigitValue(c));
  }

  /** Typing one digit selects that menu position when it is 1 to 3, and nothing else is accepted. */
  lemma SingleDigitAnswer(keys: seq<string>, defaults: seq<string>, c: char)
    requires IsDigit(c) && |keys| == 3
    ensures 1 <= DigitValue(c) <= 3 ==> SelectIndices(keys, defaults, [c]) == Ok([DigitValue(c) - 1])
    ensures !(1 <= DigitValue(c) <= 3) ==> SelectIndices(keys, defaults, [c]) == Err(InvalidInput)
  {
    DigitPiece(c);
    TypedAnswer(keys, defaults, [c]);
    var vs := ParsedPieces([c]);
    assert |vs| == 1 && vs[0] == ParseInt([c]);
    assert vs == [Some(DigitValue(c))];
    OnePosition(DigitValue(c), 3);
  }

  /** On the catalogue, the quant returned is the label of the first selected position. */
  lemma CatalogueQuant(userInput: string, k: nat)
    requires SelectIndices(Keys(Phi3Models), DefaultSelection, userInput).Ok?
    requires SelectIndices(Keys(Phi3Models), DefaultSelection, userInput).value[0] == k
    ensures k < |Phi3Quants|
    ensures SelectedQuant(Keys(Phi3Models), DefaultSelection, userInput) == Ok(Phi3Quants[k])
  {
    CatalogueNamed();
    LabelQuant(k);
  }

  /** A non-blank answer with nothing to strip is read as comma-separated positions. */
  lemma TypedAnswer(keys: seq<string>, defaults: seq<string>, answer: string)
    requires answer != "" && Strip(answer) == answer
    ensures SelectIndices(keys, defaults, answer) == ParseSelection(answer, |keys|)
  {
  }

  /**
   * A blank answer takes the default positions, and is rejected when no key
   * is marked as a default.
   */
  lemma BlankAnswer(keys: seq<string>, defaults: seq<string>, answer: string)
    requires Strip(answer) == ""
    ensures DefaultIndices(keys, defaults) == [] ==> SelectIndices(keys, defaults, answer) == Err(NothingSelected)
    ensures DefaultIndices(keys, defaults) != [] ==> SelectIndices(keys, defaults, answer) == Ok(DefaultIndices(keys, defaults))
  {
  }

  /** One piece: accepted exactly when in range, as its 0-based position. */
  lemma OnePosition(v: int, count: nat)
    ensures 1 <= v <= count ==> ParsePositions([Some(v)], count) == Ok([v - 1])
    ensures !(1 <= v <= count) ==> ParsePositions([Some(v)], count) == Err(InvalidInput)
  {
    var r := ParsePositions([Some(v)], count);
    if 1 <= v <= count {
      assert InRange([Some(v)][0], count);
      assert r.value == [r.value[0]];
    } else {
      assert !InRange([Some(v)][0], count);
    }
  }

  /** Two pieces in range give both positions, in the order given. */
  lemma TwoPositions(v1: int, v2: int, count: nat)
    requires 1 <= v1 <= count && 1 <= v2 <= count
    ensures ParsePositions([Some(v1), Some(v2)], count) == Ok([v1 - 1, v2 - 1])
  {
    var r := ParsePositions([Some(v1), Some(v2)], count);
    assert InRange([Some(v1), Some(v2)][0], count) && InRange([Some(v1), Some(v2)][1], count);
    assert r.Ok? && |r.value| == 2;
    assert r.value == [r.value[0], r.value[1]];
  }

  /** Two digits around a comma: nothing to strip, and one piece per digit. */
  lemma TwoDigitPieces(c1: char, c2: char)
    requires IsDigit(c1) && IsDigit(c2)
    ensures Strip([c1, ',', c2]) == [c1, ',', c2]
    ensures Split([c1, ',', c2], ",") == [[c1], [c2]]
    ensures ParseInt([c1]) == Some(DigitValue(c1)) && ParseInt([c2]) == Some(DigitValue(c2))
  {
    var answer := [c1, ',', c2];
    assert answer == [c1] + "," + [c2];
    SplitAroundSeparator([c1], ",", [c2]);
    DigitPiece(c1);
    DigitPiece(c2);
    RStripNoTrailingSpace(answer);
    LStripNoLeadingSpace(answer);
  }

  /** `int(i.strip())` of the two pieces of "d1,d2". */
  lemma TwoDigitParsed(c1: char, c2: char)
    requires IsDigit(c1) && IsDigit(c2)
    ensures Strip([c1, ',', c2]) == [c1, ',', c2]
    ensures ParsedPieces([c1, ',', c2]) == [Some(DigitValue(c1)), Some(DigitValue(c2))]
  {
    TwoDigitPieces(c1, c2);
    var vs := ParsedPieces([c1, ',', c2]);
    assert |vs| == 2 && vs[0] == ParseInt([c1]) && vs[1] == ParseInt([c2]);
  }

  /**
   * Two comma-separated digits select both positions in the order typed, even
   * the same one twice.
   */
  lemma TwoDigitAnswer(keys: seq<string>, defaults: seq<string>, c1: char, c2: char)
    requires IsDigit(c1) && IsDigit(c2) && |keys| == 3
    requires 1 <= DigitValue(c1) <= 3 && 1 <= DigitValue(c2) <= 3
    ensures SelectIndices(keys, defaults, [c1, ',', c2]) == Ok([DigitValue(c1) - 1, DigitValue(c2) - 1])
  {
    TwoDigitParsed(c1, c2);
    TypedAnswer(keys, defaults, [c1, ',', c2]);
    TwoPositions(DigitValue(c1), DigitValue(c2), 3);
  }

  /** On the catalogue, the answer "3" downloads the third entry and returns Q6_K; "0" is rejected. */
  lemma AnswerThreeOrZero()
    ensures SelectIndices(Keys(Phi3Models), DefaultSelection, "3") == Ok([2])
    ensures SelectedQuant(Keys(Phi3Models), DefaultSelection, "3") == Ok("Q6_K")
    ensures SelectedQuant(Keys(Phi3Models), DefaultSelection, "0") == Err(InvalidInput)
  {
    assert "3" == ['3'] && "0" == ['0'];
    SingleDigitAnswer(Keys(Phi3Models), DefaultSelection, '3');
    SingleDigitAnswer(Keys(Phi3Models), DefaultSelection, '0');
    CatalogueNamed();
    CatalogueQuant("3", 2);
  }

  /** A single piece that is not an integer literal makes the selector exit. */
  lemma NonNumberRejected(keys: seq<string>, defaults: seq<string>, w: string)
    requires |w| > 0 && ',' !in w
    requires !IsSpace(w[0]) && !IsSpace(w[|w| - 1])
    requires !IsDigit(w[0]) && w[0] != '+' && w[0] != '-'
    ensures SelectIndices(keys, defaults, w) == Err(InvalidInput)
  {
    MissingCharNotContained(w, ",", ',');
    SplitNoMatch(w, ",");
    RStripNoTrailingSpace(w);
    LStripNoLeadingSpace(w);
    assert !IntLiteral(w);
    TypedAnswer(keys, defaults, w);
    var vs := ParsedPieces(w);
    assert |vs| == 1 && vs[0] == ParseInt(w);
    assert !InRange(vs[0], |keys|);
  }

  /** A word that is not a number makes the selector exit. */
  lemma WordAnswerRejected(keys: seq<string>, defaults: seq<string>)
    ensures SelectIndices(keys, defaults, "invalid") == Err(InvalidInput)
  {
    var answer := "invalid";
    assert ',' !in answer;
    NonNumberRejected(keys, defaults, answer);
  }

  /** Selecting one model: skipped when its file is present, otherwise fetched. */
  lemma SingleSelectionPlan(models: seq<ModelEntry>, k: nat, existing: set<string>, failing: set<string>)
    requires k < |models|
    ensures ValidSelection(models, [k])
    ensures var url := models[k].url;
      && (FileName(url) in existing ==> Plan(models, [k], existing, failing) == ([Skip(FileName(url))], existing))
      && (FileName(url) !in existing && url in failing ==>
            Plan(models, [k], existing, failing) == ([Fetch(url, FileName(url), false)], existing))
      && (FileName(url) !in existing && url !in failing ==>
            Plan(models, [k], existing, failing) == ([Fetch(url, FileName(url), true)], existing + {FileName(url)}))
  {
    var prev := Plan(models, [k][..0], existing, failing);
    assert [k][..0] == [];
    assert prev == ([], existing);
    var url := models[k].url;
    var name := FileName(url);
    if name in existing {
      assert Plan(models, [k], existing, failing) == (prev.0 + [Skip(name)], prev.1);
      assert prev.0 + [Skip(name)] == [Skip(name)];
    } else if url in failing {
      assert Plan(models, [k], existing, failing) == (prev.0 + [Fetch(url, name, false)], prev.1);
      assert prev.0 + [Fetch(url, name, false)] == [Fetch(url, name, false)];
    } else {
      assert Plan(models, [k], existing, failing) == (prev.0 + [Fetch(url, name, true)], prev.1 + {name});
      assert prev.0 + [Fetch(url, name, true)] == [Fetch(url, name, true)];
    }
  }

  /**
   * Choosing one catalogue entry skips it when its model file is already on
   * disk, and otherwise fetches it under that same file name.
   */
  lemma OneEntryPlan(k: nat, existing: set<string>, failing: set<string>)
    requires k < |Phi3Models|
    ensures ModelFileName(Phi3Quants[k]) in existing ==>
      Plan(Phi3Models, [k], existing, failing).0 == [Skip(ModelFileName(Phi3Quants[k]))]
    ensures ModelFileName(Phi3Quants[k]) !in existing && Phi3Models[k].url in failing ==>
      Plan(Phi3Models, [k], existing, failing).0 == [Fetch(Phi3Models[k].url, ModelFileName(Phi3Quants[k]), false)]
    ensures ModelFileName(Phi3Quants[k]) !in existing && Phi3Models[k].url !in failing ==>
      Plan(Phi3Models, [k], existing, failing).0 == [Fetch(Phi3Models[k].url, ModelFileName(Phi3Quants[k]), true)]
  {
    CatalogueConsistent(k);
    SingleSelectionPlan(Phi3Models, k, existing, failing);
  }
}
