/**
 * The initial transport record that `build_app` derives from the project
 * document: the time signature from `meta.timeSig` and the tempo from
 * `meta.bpm` or `meta.tempo`.
 */
module Project {
  import opened Options
  import opened Text
  import opened Transport

  /**
   * The `meta` object of a project document. `timeSig` is `Some` only when the
   * document holds a JSON string under that key; `bpm` and `tempo` are the
   * numbers under theirs, `None` when the key is missing.
   */
  datatype Meta = Meta(timeSig: Option<string>, bpm: Option<real>, tempo: Option<real>)

  /** A project document; `meta` is `None` when `project.get("meta")` is falsy: missing, `null`, `{}`, `0`, `false`, `""` or `[]`. */
  datatype ProjectDoc = ProjectDoc(meta: Option<Meta>)

  /** `project.get("meta") or {}`. */
  function MetaOf(doc: ProjectDoc): Meta
  {
    match doc.meta
    case Some(m) => m
    case None => Meta(None, None, None)
  }

  /** Python truthiness of an optional number: present and nonzero. */
  predicate Truthy(x: Option<real>)
  {
    x.Some? && x.value != 0.0
  }

  /** The time signature `(ts_num, ts_den)` that `build_app` starts from when `meta.timeSig` does not parse. */
  const DefaultTimeSig: (int, int) := (4, 4)

  /**
   * The time signature `build_app` derives. A string holding "/" is split on
   * "/"; the first part gives the numerator, the second the denominator. The
   * two conversions happen one after the other, so a numerator that parses is
   * kept even when the denominator then fails.
   */
  function TimeSig(ts: Option<string>): (r: (int, int))
    ensures ts.None? ==> r == DefaultTimeSig
    ensures ts.Some? && '/' !in ts.value ==> r == DefaultTimeSig
    ensures ts.Some? && '/' in ts.value ==>
      var parts := Split(ts.value, '/');
      && |parts| >= 2
      && r.0 == (if ParseInt(parts[0]).Some? then ParseInt(parts[0]).value else 4)
      && r.1 == (if ParseInt(parts[0]).Some? && ParseInt(parts[1]).Some? then ParseInt(parts[1]).value else 4)
  {
    match ts
    case None => DefaultTimeSig
    case Some(s) =>
      if '/' !in s then DefaultTimeSig
      else
        var parts := Split(s, '/');
        match ParseInt(parts[0])
        case None => DefaultTimeSig
        case Some(num) =>
          match ParseInt(parts[1])
          case None => (num, 4)
          case Some(den) => (num, den)
  }

  /** The signature "N/D" written out, as a project document holds it. */
  function ShowTimeSig(num: int, den: int): string
  {
    Show(num) + "/" + Show(den)
  }

  /** The signature of a string whose first two "/"-separated parts parse. */
  lemma TimeSigOfParts(s: string, first: string, second: string, num: int, den: int)
    requires '/' in s
    requires Split(s, '/')[0] == first && Split(s, '/')[1] == second
    requires ParseInt(first) == Some(num) && ParseInt(second) == Some(den)
    ensures TimeSig(Some(s)) == (num, den)
  {
  }

  /** `int(str(n)) == n` for a numeral within the digit limit. */
  lemma ParseShowBare(n: int)
    requires NumeralLength(n) <= MaxStrDigits
    ensures ParseInt(Show(n)) == Some(n)
  {
    ParseShow([], n, []);
    assert [] + Show(n) + [] == Show(n);
  }

  /** Round trip: the signature written as "N/D" is read back as `(N, D)` when both numerals are within `int()`'s digit limit. */
  lemma TimeSigRoundTrip(num: int, den: int)
    requires NumeralLength(num) <= MaxStrDigits && NumeralLength(den) <= MaxStrDigits
    ensures TimeSig(Some(ShowTimeSig(num, den))) == (num, den)
  {
    var s := ShowTimeSig(num, den);
    assert s == Show(num) + ['/'] + Show(den);
    NoSlashInShow(num);
    NoSlashInShow(den);
    SplitAtSeparator(Show(num), Show(den), '/');
    SplitWithoutSeparator(Show(den), '/');
    assert Split(s, '/') == [Show(num), Show(den)];
    assert s[|Show(num)|] == '/';
    ParseShowBare(num);
    ParseShowBare(den);
    TimeSigOfParts(s, Show(num), Show(den), num, den);
  }

  /** Parts after the second do not matter: "N/D/anything" reads as "N/D". */
  lemma TimeSigIgnoresTail(num: int, den: int, tail: string)
    requires NumeralLength(num) <= MaxStrDigits && NumeralLength(den) <= MaxStrDigits
    ensures TimeSig(Some(ShowTimeSig(num, den) + "/" + tail)) == (num, den)
  {
    var s := ShowTimeSig(num, den) + "/" + tail;
    assert s == Show(num) + ['/'] + (Show(den) + ['/'] + tail);
    NoSlashInShow(num);
    NoSlashInShow(den);
    SplitAtSeparator(Show(num), Show(den) + ['/'] + tail, '/');
    SplitAtSeparator(Show(den), tail, '/');
    assert Split(s, '/')[0] == Show(num) && Split(s, '/')[1] == Show(den);
    assert s[|Show(num)|] == '/';
    ParseShowBare(num);
    ParseShowBare(den);
    TimeSigOfParts(s, Show(num), Show(den), num, den);
  }

  /** A decimal numeral has no "/" in it. */
  lemma NoSlashInShow(n: int)
    ensures '/' !in Show(n)
  {
  }

  /** A numerator that parses is kept when the denominator does not: "N/x" gives `(N, 4)`. */
  lemma TimeSigKeepsNumerator(num: int, rest: string)
    requires NumeralLength(num) <= MaxStrDigits
    requires ParseInt(rest) == None
    requires '/' !in rest
    ensures TimeSig(Some(Show(num) + "/" + rest)) == (num, 4)
  {
    var s := Show(num) + "/" + rest;
    assert s == Show(num) + ['/'] + rest;
    assert s[|Show(num)|] == '/';
    NoSlashInShow(num);
    SplitAtSeparator(Show(num), rest, '/');
    SplitWithoutSeparator(rest, '/');
    ParseShowBare(num);
  }

  /** A numerator beyond `int()`'s digit limit raises at once, and both parts keep their default. */
  lemma TimeSigLongNumerator(num: int, rest: string)
    requires NumeralLength(num) > MaxStrDigits
    ensures TimeSig(Some(Show(num) + "/" + rest)) == DefaultTimeSig
  {
    var s := Show(num) + "/" + rest;
    assert s == Show(num) + ['/'] + rest;
    assert s[|Show(num)|] == '/';
    NoSlashInShow(num);
    SplitAtSeparator(Show(num), rest, '/');
    ParseShowTooLong([], num, []);
    assert [] + Show(num) + [] == Show(num);
  }

  /** A denominator beyond the digit limit raises after the numerator is set: "N/D" gives `(N, 4)`. */
  lemma TimeSigLongDenominator(num: int, den: int)
    requires NumeralLength(num) <= MaxStrDigits && NumeralLength(den) > MaxStrDigits
    ensures TimeSig(Some(ShowTimeSig(num, den))) == (num, 4)
  {
    ParseShowTooLong([], den, []);
    assert [] + Show(den) + [] == Show(den);
    NoSlashInShow(den);
    TimeSigKeepsNumerator(num, Show(den));
  }

  /**
   * An information separator before the numerator, which `str.isspace` counts
   * as whitespace but `int()` does not, makes the conversion raise: "\x1c3/4"
   * keeps the default signature.
   */
  lemma TimeSigInfoSeparator()
    ensures TimeSig(Some("\U{1C}3/4")) == DefaultTimeSig
  {
    var s := "\U{1C}3/4";
    assert s == "\U{1C}3" + ['/'] + "4";
    SplitAtSeparator("\U{1C}3", "4", '/');
    ParseRejectsInfoSeparator("\U{1C}3", 0);
  }

  /**
   * `float(meta.get("bpm") or meta.get("tempo") or 120.0)`: the first truthy
   * value among the two keys and the default. It is never zero.
   */
  function SeedBpm(m: Meta): (bpm: real)
    ensures bpm != 0.0
    ensures Truthy(m.bpm) ==> bpm == m.bpm.value
    ensures !Truthy(m.bpm) && Truthy(m.tempo) ==> bpm == m.tempo.value
    ensures !Truthy(m.bpm) && !Truthy(m.tempo) ==> bpm == DefaultBpm
  {
    if Truthy(m.bpm) then m.bpm.value
    else if Truthy(m.tempo) then m.tempo.value
    else DefaultBpm
  }

  /** The record `build_app` creates: the derived tempo and signature over the dataclass defaults. */
  function InitialTransport(doc: ProjectDoc): (t: Transport)
    ensures !t.playing && t.bar == 1 && t.beat == 1 && t.ppq == 0.0 && t.tHost == 0.0
    ensures t.bpm == SeedBpm(MetaOf(doc))
    ensures (t.tsNum, t.tsDen) == TimeSig(MetaOf(doc).timeSig)
  {
    var m := MetaOf(doc);
    var (num, den) := TimeSig(m.timeSig);
    WithDefaults(SeedBpm(m), num, den)
  }

  /**
   * The initial record is not clamped: it breaks the invariant exactly when
   * the document's signature has a part below 1, and the first payload
   * repairs it.
   */
  lemma InitialNormalIffSignaturePositive(doc: ProjectDoc)
    ensures Normal(InitialTransport(doc)) <==> TimeSig(MetaOf(doc).timeSig).0 >= 1 && TimeSig(MetaOf(doc).timeSig).1 >= 1
  {
  }

  /** A document with tempo 90 and signature "3/4" starts at bar 1, beat 1, 90 bpm, in 3/4. */
  lemma SeedExample()
    ensures InitialTransport(ProjectDoc(Some(Meta(Some("3/4"), None, Some(90.0)))))
         == Transport(false, 1, 1, 90.0, 0.0, 3, 4, 0.0)
  {
    assert Show(3) == "3" && Show(4) == "4";
    assert ShowTimeSig(3, 4) == "3/4";
    TimeSigRoundTrip(3, 4);
  }

  /** A document without `meta` starts from every default: 120 bpm in 4/4. */
  lemma SeedWithoutMeta()
    ensures InitialTransport(ProjectDoc(None)) == Transport(false, 1, 1, 120.0, 0.0, 4, 4, 0.0)
  {
  }
}
