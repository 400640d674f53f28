/** The string and integer helpers of `importA1111`, which turns the
    "parameters" text that the AUTOMATIC1111 web UI stores in its PNG files
    into a workflow: the options line after the last "\nSteps:", the
    positive and negative prompts before it, `ceil64`, `popOpt` and the
    sampler-name rewriting.  The graph that is built from them is not part
    of this model. */
module A1111 {
  import opened Js

  const StepsMarker: string := "\nSteps:"
  const NegativeMarker: string := "\nNegative prompt:"

  // ---------------------------------------------------------------------
  // The options line

  /** One `key: value` piece of the options line. */
  datatype Setting = Setting(key: string, value: string)

  /** One step of the options `reduce`: `n.split(":")`, then the trimmed,
      lower-cased first part as key and the trimmed second part as value.
      A piece without a colon has no second part, and calling `trim` on
      `undefined` throws a TypeError: `None`. */
  function ParseOption(piece: string): (r: Option<Setting>)
    ensures r.Some? ==> ':' !in r.value.key && ':' !in r.value.value
  {
    var s := Split(piece, ':');
    if |s| < 2 then None
    else
      TrimKeepsOut(s[0], ':');
      TrimKeepsOut(s[1], ':');
      Some(Setting(ToLower(Trim(s[0])), Trim(s[1])))
  }

  /** A piece throws exactly when it has no colon. */
  lemma ParseOptionFails(piece: string)
    ensures ParseOption(piece).None? <==> ':' !in piece
  {
    SplitPair(piece, ':');
  }

  /** The key is the text before the first colon, trimmed and lower-cased;
      the value is the text between the first colon and the next one (or
      the end), trimmed: whatever follows a second colon is dropped. */
  lemma ParseOptionFields(piece: string)
    requires ':' in piece
    ensures ParseOption(piece).Some?
    ensures var i := FindChar(piece, ':');
      var rest := piece[i + 1..];
      ParseOption(piece) == Some(Setting(ToLower(Trim(piece[..i])), Trim(rest[..FindChar(rest, ':')])))
  {
    SplitPair(piece, ':');
  }

  /** The outcome of the options `reduce`. */
  datatype Options =
    | Options(opts: map<string, string>)
    | TypeError(piece: nat)              // the index of the piece that threw

  /** `pieces.reduce((p, n) => { ... p[key] = value; return p }, {})`:
      the pieces are parsed in order and folded into the dictionary. */
  function ReduceOptions(pieces: seq<string>): (r: Options)
    ensures r.TypeError? ==> r.piece < |pieces|
    ensures r.Options? ==> ProtoKey !in r.opts
  {
    var parsed := seq(|pieces|, i requires 0 <= i < |pieces| => ParseOption(pieces[i]));
    Fold(parsed, |parsed|)
  }

  /** The reduce after its first `n` steps over the parsed pieces: a left
      fold, so the `n`th piece is stored last, and the first piece that
      did not parse ends it. */
  function Fold(parsed: seq<Option<Setting>>, n: nat): (r: Options)
    requires n <= |parsed|
    ensures r.TypeError? ==> r.piece < n
    ensures r.Options? ==> ProtoKey !in r.opts
  {
    if n == 0 then Options(map[])
    else
      match Fold(parsed, n - 1)
      case TypeError(i) => TypeError(i)
      case Options(m) =>
        match parsed[n - 1]
        case None => TypeError(n - 1)
        case Some(kv) => Options(SetProperty(m, kv.key, kv.value))
  }

  /** `k` is the key of the parsed piece `i`. */
  predicate KeyAt(parsed: seq<Option<Setting>>, i: int, k: string) {
    0 <= i < |parsed| && parsed[i].Some? && parsed[i].value.key == k
  }

  lemma {:induction false} FoldFailsAtFirst(parsed: seq<Option<Setting>>, n: nat)
    requires n <= |parsed|
    ensures Fold(parsed, n).TypeError? <==> exists i :: 0 <= i < n && parsed[i].None?
    ensures Fold(parsed, n).TypeError? ==>
      var i := Fold(parsed, n).piece;
      i < n && parsed[i].None? && forall j :: 0 <= j < i ==> parsed[j].Some?
  {
    if n > 0 {
      FoldFailsAtFirst(parsed, n - 1);
    }
  }

  lemma {:induction false} FoldLastWins(parsed: seq<Option<Setting>>, n: nat, k: string)
    requires n <= |parsed| && Fold(parsed, n).Options?
    ensures k in Fold(parsed, n).opts <==> k != ProtoKey && exists i :: i < n && KeyAt(parsed, i, k)
    ensures k in Fold(parsed, n).opts ==>
      exists i :: i < n && KeyAt(parsed, i, k) && parsed[i].value.value == Fold(parsed, n).opts[k] &&
        forall j :: i < j < n ==> !KeyAt(parsed, j, k)
  {
    if n > 0 {
      FoldLastWins(parsed, n - 1, k);
      var m := Fold(parsed, n - 1).opts;
      var kv := parsed[n - 1].value;
      if kv.key == k {
        assert KeyAt(parsed, n - 1, k);
      } else if k in m {
        var i :| i < n - 1 && KeyAt(parsed, i, k) && parsed[i].value.value == m[k] &&
          forall j :: i < j < n - 1 ==> !KeyAt(parsed, j, k);
        assert !KeyAt(parsed, n - 1, k);
      }
    }
  }

  /** `k` is the key of the well-formed piece `i`. */
  predicate HasKey(pieces: seq<string>, i: int, k: string) {
    0 <= i < |pieces| && ParseOption(pieces[i]).Some? && ParseOption(pieces[i]).value.key == k
  }

  /** The reduce throws exactly when some piece has no colon, and then at
      the first such piece. */
  lemma ReduceFailsAtFirstMalformed(pieces: seq<string>)
    ensures ReduceOptions(pieces).TypeError? <==> exists i :: 0 <= i < |pieces| && ':' !in pieces[i]
    ensures ReduceOptions(pieces).TypeError? ==>
      var i := ReduceOptions(pieces).piece;
      i < |pieces| && ':' !in pieces[i] && forall j :: 0 <= j < i ==> ':' in pieces[j]
  {
    var parsed := seq(|pieces|, i requires 0 <= i < |pieces| => ParseOption(pieces[i]));
    FoldFailsAtFirst(parsed, |pieces|);
    forall i | 0 <= i < |pieces| ensures parsed[i].None? <==> ':' !in pieces[i] {
      ParseOptionFails(pieces[i]);
    }
  }

  /** Every well-formed piece's key is an option (except "__proto__", which
      the assignment sends to the prototype), there are no other options,
      and each option holds the value of the LAST piece with its key. */
  lemma ReduceLastDuplicateWins(pieces: seq<string>, k: string)
    requires ReduceOptions(pieces).Options?
    ensures k in ReduceOptions(pieces).opts <==> k != ProtoKey && exists i :: HasKey(pieces, i, k)
    ensures k in ReduceOptions(pieces).opts ==>
      exists i :: HasKey(pieces, i, k) && ParseOption(pieces[i]).value.value == ReduceOptions(pieces).opts[k] &&
        forall j :: i < j < |pieces| ==> !HasKey(pieces, j, k)
  {
    var parsed := seq(|pieces|, i requires 0 <= i < |pieces| => ParseOption(pieces[i]));
    FoldLastWins(parsed, |pieces|, k);
    assert forall i :: KeyAt(parsed, i, k) <==> HasKey(pieces, i, k);
  }

  // ---------------------------------------------------------------------
  // The parameters text

  /** What the parsing part of `importA1111` reaches. */
  datatype Parameters =
    | NoSteps                              // no "\nSteps:": nothing happens
    | BadOption(piece: nat)                // the options reduce threw
    | NoNegativePrompt(opts: map<string, string>)  // nothing is imported
    | Parsed(positive: string, negative: string, opts: map<string, string>)

  /** The options text from the last "\nSteps:" on, cut at the commas. */
  function OptionPieces(parameters: string, p: nat): seq<string>
    requires p <= |parameters|
  {
    Split(parameters[p..], ',')
  }

  /** `lastIndexOf("\nSteps:")`, the options, `lastIndexOf("\nNegative
      prompt:", p)`, then `substr(0, p2).trim()` and
      `substring(p2 + 18, p).trim()`. */
  function ParseParameters(parameters: string): (r: Parameters)
    ensures r.NoSteps? <==> forall j :: 0 <= j <= |parameters| ==> !OccursAt(parameters, StepsMarker, j)
    ensures (r.NoNegativePrompt? || r.Parsed?) ==> ProtoKey !in r.opts
  {
    var p := LastIndexOf(parameters, StepsMarker, |parameters|);
    if p < 0 then NoSteps
    else
      match ReduceOptions(OptionPieces(parameters, p))
      case TypeError(i) => BadOption(i)
      case Options(opts) =>
        var p2 := LastIndexOf(parameters, NegativeMarker, p);
        if p2 < 0 then NoNegativePrompt(opts)
        else Parsed(Trim(parameters[..p2]), Trim(Substring(parameters, p2 + 18, p)), opts)
  }

  /** Where the two markers are and what the prompts are:
      the options start at the last "\nSteps:"; the negative marker is the
      last one before it and ends no later than it starts; the positive
      prompt is everything before the negative marker, trimmed; the
      negative prompt is what lies between the marker's character after
      the colon and "\nSteps:", trimmed, and empty when nothing lies there. */
  lemma ParametersLayout(parameters: string)
    requires ParseParameters(parameters).Parsed?
    ensures var r := ParseParameters(parameters);
      var p := LastIndexOf(parameters, StepsMarker, |parameters|);
      var p2 := LastIndexOf(parameters, NegativeMarker, p);
      && 0 <= p2 && p2 + |NegativeMarker| <= p
      && OccursAt(parameters, StepsMarker, p)
      && (forall j :: p < j <= |parameters| ==> !OccursAt(parameters, StepsMarker, j))
      && OccursAt(parameters, NegativeMarker, p2)
      && (forall j :: p2 < j <= p ==> !OccursAt(parameters, NegativeMarker, j))
      && ReduceOptions(OptionPieces(parameters, p)) == Options(r.opts)
      && r.positive == Trim(parameters[..p2])
      && r.negative == if p2 + 18 <= p then Trim(parameters[p2 + 18..p]) else ""
  {
    var p := LastIndexOf(parameters, StepsMarker, |parameters|);
    var p2 := LastIndexOf(parameters, NegativeMarker, p);
    assert ParseParameters(parameters) == Parsed(Trim(parameters[..p2]), Trim(Substring(parameters, p2 + 18, p)), ReduceOptions(OptionPieces(parameters, p)).opts);
    MarkersApart(parameters, p, p2);
    if p == p2 + 17 {
      assert Substring(parameters, p2 + 18, p) == parameters[p..p + 1];
      assert parameters[p..p + 1] == "\n" by {
        assert parameters[p..p + 7] == StepsMarker;
        assert parameters[p] == parameters[p..p + 7][0];
      }
      assert Trim("\n") == Trim("");
    }
  }

  /** A "\nNegative prompt:" that starts at or before a "\nSteps:" ends
      before it: the only line break in the negative marker is its first
      character, and the two markers differ in their second. */
  lemma MarkersApart(s: string, p: nat, p2: nat)
    requires OccursAt(s, StepsMarker, p) && OccursAt(s, NegativeMarker, p2) && p2 <= p
    ensures p2 + |NegativeMarker| <= p
  {
    if p2 == p {
      CharAt(s, StepsMarker, p, 1);
      CharAt(s, NegativeMarker, p2, 1);
      assert false;
    } else if p < p2 + 17 {
      CharAt(s, StepsMarker, p, 0);
      CharAt(s, NegativeMarker, p2, p - p2);
      assert false;
    }
  }

  lemma CharAt(s: string, pat: string, p: nat, k: nat)
    requires OccursAt(s, pat, p) && k < |pat|
    ensures s[p + k] == pat[k]
  {
    assert s[p..p + |pat|][k] == pat[k];
  }


  /** The source skips the one character after "Negative prompt:" without
      looking at it; the web UI writes a space there, and where that
      character is white space the skip loses nothing. */
  lemma SkippedCharacterIsHarmless(parameters: string, p2: nat, p: nat)
    requires p2 + 18 <= p <= |parameters|
    requires IsWhiteSpace(parameters[p2 + 17])
    ensures Trim(parameters[p2 + 18..p]) == Trim(parameters[p2 + 17..p])
  {
    assert parameters[p2 + 17..p][1..] == parameters[p2 + 18..p];
  }

  // ---------------------------------------------------------------------
  // Sizes

  /** `Math.ceil(v / 64) * 64` for a natural `v`: the least multiple of 64
      that is at least `v`. */
  function Ceil64(v: nat): (r: nat)
    ensures r % 64 == 0 && v <= r < v + 64
  {
    (v + 63) / 64 * 64
  }

  // ---------------------------------------------------------------------
  // popOpt

  /** The options dictionary that the handlers consume. */
  class OptionBag {
    var opts: map<string, string>

    constructor (opts: map<string, string>)
      ensures this.opts == opts
    {
      this.opts := opts;
    }

    /** `popOpt(name)`: reads `opts[name]` and deletes the key; a missing
        key reads as `undefined`. */
    method PopOpt(name: string) returns (v: Option<string>)
      modifies this
      ensures v == if name in old(opts) then Some(old(opts)[name]) else None
      ensures opts == old(opts) - {name}
      ensures name !in opts
    {
      v := if name in opts then Some(opts[name]) else None;
      opts := opts - {name};
    }
  }

  // ---------------------------------------------------------------------
  // The sampler handler

  datatype Scheduler = Karras | Normal

  datatype Sampler = Sampler(name: string, scheduler: Scheduler)

  /** `v.toLowerCase().replace("++", "pp").replaceAll(" ", "_")`. */
  function SamplerBase(v: string): (r: string)
    ensures ' ' !in r
    ensures var w := ReplaceFirst(ToLower(v), "++", "pp");
      |r| == |w| && forall i :: 0 <= i < |w| ==> r[i] == if w[i] == ' ' then '_' else w[i]
  {
    ReplaceAllChar(ReplaceFirst(ToLower(v), "++", "pp"), ' ', '_')
  }

  /** The sampler handler's rewriting: a name containing "karras" loses its
      first "karras" and its trailing underscores and selects the Karras
      scheduler; any other name keeps the normal scheduler. */
  function NormalizeSampler(v: string): (r: Sampler)
    ensures ' ' !in r.name
    ensures r.scheduler == Karras <==> Contains(SamplerBase(v), "karras")
    ensures r.scheduler == Normal ==> r.name == SamplerBase(v)
    ensures r.scheduler == Karras ==>
      var cut := ReplaceFirst(SamplerBase(v), "karras", "");
      |r.name| <= |cut| && r.name == cut[..|r.name|] &&
      forall i :: |r.name| <= i < |cut| ==> cut[i] == '_'
    ensures r.scheduler == Karras ==> |r.name| == 0 || r.name[|r.name| - 1] != '_'
  {
    var name := SamplerBase(v);
    if Contains(name, "karras") then
      var cut := ReplaceFirst(name, "karras", "");
      var stripped := StripTrailing(cut, '_');
      ReplaceFirstKeepsOut(name, "karras", "", ' ');
      assert stripped == cut[..|stripped|];
      Sampler(stripped, Karras)
    else Sampler(name, Normal)
  }

  /** A name that is already lower case, with no space, no "++" and no
      "karras", comes through unchanged with the normal scheduler. */
  lemma NormalizeSamplerFixes(v: string)
    requires forall i :: 0 <= i < |v| ==> !('A' <= v[i] <= 'Z') && v[i] != ' '
    requires !Contains(v, "++") && !Contains(v, "karras")
    ensures NormalizeSampler(v) == Sampler(v, Normal)
  {
    assert ToLower(v) == v;
    assert ReplaceAllChar(v, ' ', '_') == v;
  }

  /** The test of the sampler handler's `find`. */
  predicate SamplerMatches(w: string, name: string) {
    w == name || w == "sample_" + name
  }

  /** The index where `w.options.values.find((w) => w === name || w ===
      "sample_" + name)` stops, or -1 when it finds nothing. */
  function FindSampler(values: seq<string>, name: string): (r: int)
    ensures -1 <= r < |values|
    ensures r >= 0 ==> SamplerMatches(values[r], name)
    ensures forall j :: 0 <= j < |values| && (r == -1 || j < r) ==> !SamplerMatches(values[j], name)
    decreases |values|
  {
    if |values| == 0 then -1
    else if SamplerMatches(values[0], name) then 0
    else
      var r := FindSampler(values[1..], name);
      if r < 0 then -1 else r + 1
  }

  /** The sampler widget is set only to a found, truthy (non-empty) value. */
  function ChosenSampler(values: seq<string>, name: string): (r: Option<string>)
    ensures r.Some? ==> r.value != "" && r.value in values && SamplerMatches(r.value, name)
    ensures r.Some? ==> FindSampler(values, name) >= 0 && r.value == values[FindSampler(values, name)]
    ensures r.None? ==> FindSampler(values, name) < 0 || values[FindSampler(values, name)] == ""
    ensures r.None? && name != "" ==> forall i :: 0 <= i < |values| ==> !SamplerMatches(values[i], name)
  {
    var i := FindSampler(values, name);
    if i >= 0 && values[i] != "" then Some(values[i]) else None
  }
}
