/**
  The command-line program of the current version: reading the authorized
  keys, announcing the host key to an external command, choosing `run`'s
  result and mapping it to the process exit status.
 */
module Cli {
  import opened Common
  import opened Keys
  import Server

  /*
   * Whitespace fields of the announce command.
   */

  /** `unicode.IsSpace`: the Latin-1 spaces '\t', '\n', '\v', '\f', '\r', ' ', U+0085, U+00A0, and the White_Space characters beyond. */
  predicate IsSpace(c: char) {
    c == '\t' || c == '\n' || c == '\U{B}' || c == '\U{C}' || c == '\r' || c == ' '
    || c == '\U{85}' || c == '\U{A0}' || c == '\U{1680}' || ('\U{2000}' <= c <= '\U{200A}')
    || c == '\U{2028}' || c == '\U{2029}' || c == '\U{202F}' || c == '\U{205F}' || c == '\U{3000}'
  }

  predicate SpaceFree(s: string) {
    forall i | 0 <= i < |s| :: !IsSpace(s[i])
  }

  /** Only white space. */
  predicate Blank(s: string) {
    forall i | 0 <= i < |s| :: IsSpace(s[i])
  }

  /** What is left of `s` after its leading white space. */
  function TrimLeft(s: string): (t: string)
    ensures |t| <= |s| && t == s[|s| - |t|..]
    ensures t == [] || !IsSpace(t[0])
    ensures forall i | 0 <= i < |s| - |t| :: IsSpace(s[i])
    decreases |s|
  {
    if s != [] && IsSpace(s[0]) then TrimLeft(s[1..]) else s
  }

  /** The longest prefix of `s` without white space. */
  function Word(s: string): (w: string)
    ensures w <= s && SpaceFree(w)
    ensures |w| < |s| ==> IsSpace(s[|w|])
    decreases |s|
  {
    if s == [] || IsSpace(s[0]) then [] else [s[0]] + Word(s[1..])
  }

  /**
    `strings.Fields`: the maximal runs of non-space characters, in order.
    Every field is non-empty and holds no white space; `FieldsOfSpaced` and
    `SpacedFields` below show that the fields are exactly those runs.
   */
  function Fields(s: string): (fs: seq<string>)
    ensures forall i | 0 <= i < |fs| :: fs[i] != [] && SpaceFree(fs[i])
    decreases |s|
  {
    var t := TrimLeft(s);
    if t == [] then []
    else
      var w := Word(t);
      [w] + Fields(t[|w|..])
  }

  /** The characters of `s` that are not white space, in order. */
  function NonSpace(s: string): string
    decreases |s|
  {
    if s == [] then [] else (if IsSpace(s[0]) then [] else [s[0]]) + NonSpace(s[1..])
  }

  function Concat(fs: seq<string>): string
    decreases |fs|
  {
    if fs == [] then [] else fs[0] + Concat(fs[1..])
  }

  lemma {:induction false} NonSpaceAppend(a: string, b: string)
    ensures NonSpace(a + b) == NonSpace(a) + NonSpace(b)
    decreases |a|
  {
    if a != [] {
      assert (a + b)[0] == a[0] && (a + b)[1..] == a[1..] + b;
      NonSpaceAppend(a[1..], b);
    } else {
      assert a + b == b;
    }
  }

  lemma {:induction false} NonSpaceOfSpaces(s: string)
    requires forall i | 0 <= i < |s| :: IsSpace(s[i])
    ensures NonSpace(s) == []
    decreases |s|
  {
    if s != [] {
      NonSpaceOfSpaces(s[1..]);
    }
  }

  lemma {:induction false} NonSpaceOfSpaceFree(s: string)
    requires SpaceFree(s)
    ensures NonSpace(s) == s
    decreases |s|
  {
    if s != [] {
      NonSpaceOfSpaceFree(s[1..]);
      assert [s[0]] + s[1..] == s;
    }
  }

  /** Leading white space contributes no character. */
  lemma NonSpaceTrim(s: string)
    ensures NonSpace(s) == NonSpace(TrimLeft(s))
  {
    var t := TrimLeft(s);
    assert s == s[..|s| - |t|] + t;
    NonSpaceAppend(s[..|s| - |t|], t);
    NonSpaceOfSpaces(s[..|s| - |t|]);
  }

  /** A leading word contributes itself. */
  lemma NonSpaceWord(t: string)
    ensures NonSpace(t) == Word(t) + NonSpace(t[|Word(t)|..])
  {
    var w := Word(t);
    assert t == w + t[|w|..];
    NonSpaceAppend(w, t[|w|..]);
    NonSpaceOfSpaceFree(w);
  }

  /** Splitting into fields loses no character but white space, and invents none. */
  lemma {:induction false} FieldsKeepText(s: string)
    ensures Concat(Fields(s)) == NonSpace(s)
    decreases |s|
  {
    var t := TrimLeft(s);
    NonSpaceTrim(s);
    if t != [] {
      var w := Word(t);
      NonSpaceWord(t);
      FieldsKeepText(t[|w|..]);
      assert Concat(Fields(s)) == w + Concat(Fields(t[|w|..]));
    }
  }

  /** Words separated by single spaces. */
  function Join(words: seq<string>): string
    decreases |words|
  {
    if words == [] then [] else if |words| == 1 then words[0] else words[0] + " " + Join(words[1..])
  }

  lemma {:induction false} WordOfSpaced(w: string, rest: string)
    requires SpaceFree(w)
    requires rest == [] || IsSpace(rest[0])
    ensures Word(w + rest) == w
    decreases |w|
  {
    if w == [] {
      assert w + rest == rest;
    } else {
      assert (w + rest)[1..] == w[1..] + rest;
      WordOfSpaced(w[1..], rest);
      assert [w[0]] + w[1..] == w;
    }
  }

  /** A word followed by white space (or nothing) is the first field. */
  lemma FieldsOfWord(w: string, rest: string)
    requires w != [] && SpaceFree(w)
    requires rest == [] || IsSpace(rest[0])
    ensures Fields(w + rest) == [w] + Fields(rest)
  {
    var s := w + rest;
    assert s[0] == w[0];
    assert TrimLeft(s) == s;
    WordOfSpaced(w, rest);
    assert s[|w|..] == rest;
  }

  /** A leading space does not change the fields. */
  lemma FieldsOfSpace(rest: string)
    ensures Fields(" " + rest) == Fields(rest)
  {
    assert (" " + rest)[1..] == rest;
    assert TrimLeft(" " + rest) == TrimLeft(rest);
  }

  /** A single word is its only field. */
  lemma FieldsOfOneWord(w: string)
    requires w != [] && SpaceFree(w)
    ensures Fields(w) == [w]
  {
    FieldsOfWord(w, []);
    assert w + [] == w;
    assert Fields([]) == [];
  }

  /** The fields of joined words are the first word, then the fields of the rest joined. */
  lemma FieldsOfJoinCons(words: seq<string>)
    requires |words| > 1 && words[0] != [] && SpaceFree(words[0])
    ensures Fields(Join(words)) == [words[0]] + Fields(Join(words[1..]))
  {
    var rest := Join(words[1..]);
    assert Join(words) == words[0] + (" " + rest);
    FieldsOfWord(words[0], " " + rest);
    FieldsOfSpace(rest);
  }

  /** Splitting words that were joined by single spaces gives back the words. */
  lemma {:induction false} FieldsOfJoin(words: seq<string>)
    requires forall i | 0 <= i < |words| :: words[i] != [] && SpaceFree(words[i])
    ensures Fields(Join(words)) == words
    decreases |words|
  {
    if words == [] {
      assert Join(words) == [];
    } else if |words| == 1 {
      FieldsOfOneWord(words[0]);
    } else {
      FieldsOfJoinCons(words);
      FieldsOfJoin(words[1..]);
      assert [words[0]] + words[1..] == words;
    }
  }

  /** Leading white space of any length does not change the fields. */
  lemma {:induction false} FieldsOfSpaces(sp: string, rest: string)
    requires Blank(sp)
    ensures Fields(sp + rest) == Fields(rest)
    decreases |sp|
  {
    if sp == [] {
      assert sp + rest == rest;
    } else {
      assert (sp + rest)[1..] == sp[1..] + rest;
      assert TrimLeft(sp + rest) == TrimLeft(sp[1..] + rest);
      FieldsOfSpaces(sp[1..], rest);
    }
  }

  /**
    The words with white-space runs around and between them: `gaps[0]` before
    the first word, `gaps[i]` between words `i - 1` and `i`, and the last gap
    after the last word.
   */
  function Spaced(words: seq<string>, gaps: seq<string>): string
    requires |gaps| == |words| + 1
    decreases |words|
  {
    if words == [] then gaps[0] else gaps[0] + words[0] + Spaced(words[1..], gaps[1..])
  }

  /** Non-empty space-free words, white-space gaps, and a non-empty gap between any two words. */
  predicate WellSpaced(words: seq<string>, gaps: seq<string>)
    decreases |words|
  {
    && |gaps| == |words| + 1
    && Blank(gaps[0])
    && (words != [] ==>
         && words[0] != [] && SpaceFree(words[0])
         && (|words| > 1 ==> gaps[1] != [])
         && WellSpaced(words[1..], gaps[1..]))
  }

  /** A well-spaced string starts with its first gap, then its first word if there is one. */
  lemma SpacedStart(words: seq<string>, gaps: seq<string>)
    requires WellSpaced(words, gaps)
    ensures Spaced(words, gaps) == [] || (gaps[0] != [] && Spaced(words, gaps)[0] == gaps[0][0])
      || (gaps[0] == [] && words != [] && Spaced(words, gaps)[0] == words[0][0])
  {
  }

  /** After the first gap and word, the rest is well spaced and is empty or starts with white space. */
  lemma SpacedTail(words: seq<string>, gaps: seq<string>)
    requires WellSpaced(words, gaps) && words != []
    ensures WellSpaced(words[1..], gaps[1..])
    ensures var rest := Spaced(words[1..], gaps[1..]); rest == [] || IsSpace(rest[0])
  {
    assert WellSpaced(words[1..], gaps[1..]);
    SpacedStart(words[1..], gaps[1..]);
    if |words| == 1 {
      assert Spaced(words[1..], gaps[1..]) == gaps[1];
    } else {
      assert gaps[1] != [] && IsSpace(gaps[1][0]);
    }
  }

  /** One step of `FieldsOfSpaced`: the first gap goes, the first word is the first field. */
  lemma FieldsOfSpacedCons(words: seq<string>, gaps: seq<string>)
    requires WellSpaced(words, gaps) && words != []
    ensures Fields(Spaced(words, gaps)) == [words[0]] + Fields(Spaced(words[1..], gaps[1..]))
  {
    var rest := Spaced(words[1..], gaps[1..]);
    var a := words[0] + rest;
    assert Spaced(words, gaps) == gaps[0] + a;
    FieldsOfSpaces(gaps[0], a);
    SpacedTail(words, gaps);
    FieldsOfWord(words[0], rest);
  }

  /**
    `strings.Fields` splits at every run of white space: whatever the runs
    around and between the words, the fields are exactly the words.
   */
  lemma {:induction false} FieldsOfSpaced(words: seq<string>, gaps: seq<string>)
    requires WellSpaced(words, gaps)
    ensures Fields(Spaced(words, gaps)) == words
    decreases |words|
  {
    if words == [] {
      FieldsOfSpaces(gaps[0], []);
      assert gaps[0] + [] == gaps[0];
    } else {
      FieldsOfSpacedCons(words, gaps);
      SpacedTail(words, gaps);
      FieldsOfSpaced(words[1..], gaps[1..]);
      assert [words[0]] + words[1..] == words;
    }
  }

  /** The white space `TrimLeft` drops is a prefix of blanks. */
  lemma TrimmedLead(s: string)
    ensures s == s[..|s| - |TrimLeft(s)|] + TrimLeft(s)
    ensures Blank(s[..|s| - |TrimLeft(s)|])
  {
    var t := TrimLeft(s);
    assert s == s[..|s| - |t|] + t;
  }

  /** A string of white space only has no fields. */
  lemma FieldsUnfoldBlank(s: string)
    requires TrimLeft(s) == []
    ensures Fields(s) == [] && Blank(s)
  {
    TrimmedLead(s);
    assert s[..|s|] == s;
  }

  /** Otherwise the first field is the word after the leading white space. */
  lemma FieldsUnfoldWord(s: string)
    requires TrimLeft(s) != []
    ensures var t := TrimLeft(s); var w := Word(t);
      Fields(s) == [w] + Fields(t[|w|..])
  {
  }

  /** The pieces `FieldsUnfoldWord` names put `s` back together. */
  lemma WordSplit(t: string)
    requires t != [] && !IsSpace(t[0])
    ensures var w := Word(t);
      && t == w + t[|w|..] && w != [] && SpaceFree(w)
      && (t[|w|..] == [] || IsSpace(t[|w|..][0]))
  {
    var w := Word(t);
    assert t == w + t[|w|..];
  }

  /** A well-spaced string with words and no leading gap starts with a non-space. */
  lemma SpacedStartsWithWord(words: seq<string>, gaps: seq<string>)
    requires WellSpaced(words, gaps) && words != [] && gaps[0] == []
    ensures Spaced(words, gaps) != [] && !IsSpace(Spaced(words, gaps)[0])
  {
    var w := words[0];
    var rest := Spaced(words[1..], gaps[1..]);
    assert gaps[0] + w == w;
    assert Spaced(words, gaps) == w + rest;
    assert (w + rest)[0] == w[0];
    assert !IsSpace(w[0]);
  }

  /** A gap and a word in front of a well-spaced string, which is empty or starts with white space. */
  lemma SpacedCons(lead: string, w: string, words: seq<string>, gaps: seq<string>)
    requires Blank(lead) && w != [] && SpaceFree(w) && WellSpaced(words, gaps)
    requires Spaced(words, gaps) == [] || IsSpace(Spaced(words, gaps)[0])
    ensures WellSpaced([w] + words, [lead] + gaps)
    ensures Spaced([w] + words, [lead] + gaps) == lead + (w + Spaced(words, gaps))
  {
    if words != [] && gaps[0] == [] {
      SpacedStartsWithWord(words, gaps);
    }
    assert ([w] + words)[1..] == words && ([lead] + gaps)[1..] == gaps;
    assert lead + w + Spaced(words, gaps) == lead + (w + Spaced(words, gaps));
  }

  /** One step of `SpacedFields`: the leading white space and the first word in front of a decomposed rest. */
  lemma SpacedFieldsStep(s: string, lead: string, t: string, w: string, rest: string, fs: seq<string>, gaps: seq<string>)
    requires s == lead + t && t == w + rest && Fields(s) == [w] + fs
    requires Blank(lead) && w != [] && SpaceFree(w) && (rest == [] || IsSpace(rest[0]))
    requires WellSpaced(fs, gaps) && Spaced(fs, gaps) == rest
    ensures WellSpaced(Fields(s), [lead] + gaps) && Spaced(Fields(s), [lead] + gaps) == s
  {
    SpacedCons(lead, w, fs, gaps);
  }

  /**
    Every string is its fields with white-space runs around and between
    them, so `FieldsOfSpaced` fixes the fields of every string: they are its
    maximal runs of non-space characters.
   */
  lemma {:induction false} SpacedFields(s: string) returns (gaps: seq<string>)
    ensures WellSpaced(Fields(s), gaps) && Spaced(Fields(s), gaps) == s
    decreases |s|
  {
    var t := TrimLeft(s);
    if t == [] {
      FieldsUnfoldBlank(s);
      gaps := [s];
    } else {
      var w := Word(t);
      var rest := t[|w|..];
      TrimmedLead(s);
      WordSplit(t);
      FieldsUnfoldWord(s);
      var gaps' := SpacedFields(rest);
      SpacedFieldsStep(s, s[..|s| - |t|], t, w, rest, Fields(rest), gaps');
      gaps := [s[..|s| - |t|]] + gaps';
    }
  }

  /*
   * The announcement.
   */

  /** The argv of the announce command: its white-space fields, then the known-hosts line as one last argument. */
  function AnnounceArgv(command: string, key: PublicKey): (argv: seq<string>)
    ensures |argv| >= 1
    ensures argv[|argv| - 1] == FormatKnownHosts(key)
    ensures argv[..|argv| - 1] == Fields(command)
  {
    Fields(command) + [FormatKnownHosts(key)]
  }

  /**
    A command written as words separated by white-space runs of any length,
    with or without white space before and after, runs its first word with
    the rest and the key line as arguments.
   */
  lemma AnnounceArgvOfWords(words: seq<string>, gaps: seq<string>, key: PublicKey)
    requires WellSpaced(words, gaps)
    ensures AnnounceArgv(Spaced(words, gaps), key) == words + [FormatKnownHosts(key)]
  {
    FieldsOfSpaced(words, gaps);
  }

  /** What `performAnnouncement` returns: the captured standard error and the error. */
  datatype Announcement = Announcement(argv: seq<string>, stderr: seq<byte>, err: Option<Error>)

  /** `performAnnouncement(command, key)`, when running the command's `Output()` gives `outcome`. */
  function PerformAnnouncement(command: string, key: PublicKey, outcome: Option<Error>): (a: Announcement)
    ensures a.argv == AnnounceArgv(command, key) && a.err == outcome
  {
    var argv := AnnounceArgv(command, key);
    match outcome
    case None => Announcement(argv, [], None)
    case Some(e) =>
      match AsExitError(e)
      case Some(ExitError(_, stderr)) => Announcement(argv, stderr, outcome)
      case _ => Announcement(argv, [], outcome)
  }

  /** Standard error is reported only for a command that ran and exited unsuccessfully, and is then its captured output. */
  lemma AnnouncementStderr(command: string, key: PublicKey, outcome: Option<Error>)
    ensures var a := PerformAnnouncement(command, key, outcome);
      a.stderr == (if outcome.Some? && Root(outcome.value).ExitError? then Root(outcome.value).stderr else [])
  {
    if outcome.Some? {
      var e := outcome.value;
      AsExitErrorFindsRoot(e);
      if Root(e).ExitError? {
        assert AsExitError(e) == Some(ExitError(Root(e).code, Root(e).stderr));
      } else {
        assert AsExitError(e) == None;
      }
    }
  }

  /*
   * The authorized-keys file.
   */

  const NoKeysMessage: string := "no keys supplied - either pass a file using -authorized-keys, or pipe them in"

  /** The first line, from line `from` on, that the parser rejects. */
  function FirstUnparsable(lines: seq<seq<byte>>, parse: seq<byte> -> Result<PublicKey, Error>, from: nat): (r: Option<nat>)
    ensures r.Some? ==> from <= r.value < |lines| && parse(lines[r.value]).Err?
    ensures r.Some? ==> forall j | from <= j < r.value :: parse(lines[j]).Ok?
    ensures r.None? ==> forall j | from <= j < |lines| :: parse(lines[j]).Ok?
    decreases |lines| - from
  {
    if from >= |lines| then None
    else if parse(lines[from]).Err? then Some(from)
    else FirstUnparsable(lines, parse, from + 1)
  }

  /** The keys of lines the parser accepts, one per line, in order. */
  function ParsedKeys(lines: seq<seq<byte>>, parse: seq<byte> -> Result<PublicKey, Error>): (keys: seq<PublicKey>)
    requires forall j | 0 <= j < |lines| :: parse(lines[j]).Ok?
    ensures |keys| == |lines| && forall j | 0 <= j < |lines| :: keys[j] == parse(lines[j]).value
  {
    seq(|lines|, j requires 0 <= j < |lines| && parse(lines[j]).Ok? => parse(lines[j]).value)
  }

  /**
    The outcome of scanning `lines` (then the scanner's error): an empty first
    line means no keys; otherwise the first line the parser rejects fails, with
    its zero-based number; otherwise a scan error fails; otherwise the keys.
   */
  function LinesResult(lines: seq<seq<byte>>, scanErr: Option<Error>,
                       parse: seq<byte> -> Result<PublicKey, Error>): (r: Result<seq<PublicKey>, Error>)
    ensures lines != [] && lines[0] == [] ==> r == Err(Message(NoKeysMessage))
    ensures r.Ok? ==> scanErr.None? && |r.value| == |lines|
    ensures r.Ok? ==> forall j | 0 <= j < |lines| :: parse(lines[j]).Ok? && r.value[j] == parse(lines[j]).value
  {
    if lines != [] && lines[0] == [] then Err(Message(NoKeysMessage))
    else match FirstUnparsable(lines, parse, 0)
      case Some(i) => Err(Wrapped("failed to parse key on line " + Decimal(i), parse(lines[i]).error))
      case None => if scanErr.Some? then Err(Wrapped("scanning file failed", scanErr.value)) else Ok(ParsedKeys(lines, parse))
  }

  /**
    `parseAuthorizedKeysFile(path)`: standard input when `path` is empty,
    otherwise the file, whose opening may fail with `openErr`; `lines` are the
    lines the scanner yields before stopping with `scanErr`.
   */
  method ParseAuthorizedKeysFile(path: string, openErr: Option<Error>, lines: seq<seq<byte>>, scanErr: Option<Error>,
                                 parse: seq<byte> -> Result<PublicKey, Error>) returns (r: Result<seq<PublicKey>, Error>)
    ensures path != [] && openErr.Some? ==> r == Err(Wrapped("failed to open file", openErr.value))
    ensures path == [] || openErr.None? ==> r == LinesResult(lines, scanErr, parse)
  {
    if path != [] && openErr.Some? {
      return Err(Wrapped("failed to open file", openErr.value));
    }
    var keys: seq<PublicKey> := [];
    for i := 0 to |lines|
      invariant |keys| == i
      invariant forall j | 0 <= j < i :: parse(lines[j]).Ok? && keys[j] == parse(lines[j]).value
      invariant i > 0 ==> lines[0] != []
    {
      if |keys| == 0 && |lines[i]| == 0 {
        return Err(Message(NoKeysMessage));
      }
      var parsed := parse(lines[i]);
      if parsed.Err? {
        FirstUnparsableIs(lines, parse, i);
        return Err(Wrapped("failed to parse key on line " + Decimal(|keys|), parsed.error));
      }
      keys := keys + [parsed.value];
    }
    FirstUnparsableIs(lines, parse, |lines|);
    if scanErr.Some? {
      return Err(Wrapped("scanning file failed", scanErr.value));
    }
    assert keys == ParsedKeys(lines, parse);
    return Ok(keys);
  }

  /** If every line before `i` parses and line `i` does not (or there is none), the search finds exactly `i`. */
  lemma FirstUnparsableIs(lines: seq<seq<byte>>, parse: seq<byte> -> Result<PublicKey, Error>, i: nat)
    requires i <= |lines|
    requires forall j | 0 <= j < i :: parse(lines[j]).Ok?
    requires i < |lines| ==> parse(lines[i]).Err?
    ensures FirstUnparsable(lines, parse, 0) == if i < |lines| then Some(i) else None
  {
  }

  /** Input without lines gives no keys and no error. */
  lemma NoLinesNoKeys(parse: seq<byte> -> Result<PublicKey, Error>)
    ensures LinesResult([], None, parse) == Ok([])
  {
  }

  /**
    On success there is one key per line, in input order; a failure is the
    empty-input notice, the first rejected line with its index, or the scan error.
   */
  lemma LinesResultCases(lines: seq<seq<byte>>, scanErr: Option<Error>, parse: seq<byte> -> Result<PublicKey, Error>)
    ensures var r := LinesResult(lines, scanErr, parse);
      && (r.Ok? <==> (lines == [] || lines[0] != []) && scanErr.None? && forall j | 0 <= j < |lines| :: parse(lines[j]).Ok?)
      && (r.Ok? ==> |r.value| == |lines| && forall j | 0 <= j < |lines| :: r.value[j] == parse(lines[j]).value)
      && (r.Err? ==> (|| r.error == Message(NoKeysMessage)
                  || (exists i | 0 <= i < |lines| :: parse(lines[i]).Err? && r.error == Wrapped("failed to parse key on line " + Decimal(i), parse(lines[i]).error))
                  || (scanErr.Some? && r.error == Wrapped("scanning file failed", scanErr.value))))
  {
    var f := FirstUnparsable(lines, parse, 0);
    if f.Some? {
      assert !parse(lines[f.value]).Ok?;
    }
  }

  /*
   * `run`'s result and the exit status.
   */

  /** The outcomes of `run`'s start-up steps before serving. */
  datatype Startup = Startup(logOpenErr: Option<Error>, keys: Result<seq<PublicKey>, Error>, keyGenErr: Option<Error>,
                             signerErr: Option<Error>, publicKeyErr: Option<Error>)

  /** The first failing start-up step, wrapped with what `run` was doing; `None` when start-up succeeds. */
  function StartupError(logPath: string, st: Startup): (r: Option<Error>)
    ensures r.None? <==> st.logOpenErr.None? && st.keys.Ok? && st.keyGenErr.None? && st.signerErr.None? && st.publicKeyErr.None?
    ensures st.logOpenErr.Some? ==> r == Some(Wrapped("failed to open log file at " + logPath, st.logOpenErr.value))
    ensures st.logOpenErr.None? && st.keys.Err? ==> r == Some(Wrapped("failed to parse authorized keys file", st.keys.error))
    ensures st.logOpenErr.None? && st.keys.Ok? && st.keyGenErr.Some? ==>
      r == Some(Wrapped("failed to generate key", st.keyGenErr.value))
    ensures st.logOpenErr.None? && st.keys.Ok? && st.keyGenErr.None? && st.signerErr.Some? ==>
      r == Some(Wrapped("failed to convert private key to format expected by ssh server", st.signerErr.value))
    ensures st.logOpenErr.None? && st.keys.Ok? && st.keyGenErr.None? && st.signerErr.None? && st.publicKeyErr.Some? ==>
      r == Some(Wrapped("failed to convert public key to ssh.PublicKey", st.publicKeyErr.value))
  {
    if st.logOpenErr.Some? then Some(Wrapped("failed to open log file at " + logPath, st.logOpenErr.value))
    else if st.keys.Err? then Some(Wrapped("failed to parse authorized keys file", st.keys.error))
    else if st.keyGenErr.Some? then Some(Wrapped("failed to generate key", st.keyGenErr.value))
    else if st.signerErr.Some? then Some(Wrapped("failed to convert private key to format expected by ssh server", st.signerErr.value))
    else if st.publicKeyErr.Some? then Some(Wrapped("failed to convert public key to ssh.PublicKey", st.publicKeyErr.value))
    else None
  }

  /**
    `run`'s result after serving: a listener error is the result unless it is
    `ErrServerClosed`, which means success; only a listener that returns nil
    lets a failing `Close` (with a message that has lost its cause) or the
    recorded session error through.
   */
  function ServeResult(listenErr: Option<Error>, closeErr: Option<Error>, sessionErr: Option<Error>): (r: Option<Error>)
    ensures listenErr.Some? ==> r == (if Root(listenErr.value) == ServerClosed then None else listenErr)
    ensures listenErr.None? && closeErr.Some? ==> r == Some(Message("failed to "))
    ensures listenErr.None? && closeErr.None? ==> r == sessionErr
  {
    if listenErr.Some? then
      IsServerClosedFindsRoot(listenErr.value);
      if IsServerClosed(listenErr.value) then None else listenErr
    else if closeErr.Some? then Some(Message("failed to "))
    else sessionErr
  }

  /**
    `run(...)`: the start-up error if any step fails, otherwise the serving
    result. The announcement's outcome reaches only a logged warning, so it
    is not a parameter.
   */
  function RunResult(logPath: string, st: Startup,
                     listenErr: Option<Error>, closeErr: Option<Error>, sessionErr: Option<Error>): (r: Option<Error>)
    ensures StartupError(logPath, st).Some? ==> r == StartupError(logPath, st)
  {
    var startup := StartupError(logPath, st);
    if startup.Some? then startup else ServeResult(listenErr, closeErr, sessionErr)
  }

  /**
    Start-up reads the authorized keys first: an input whose first line is
    empty stops `run` with the no-keys notice, and since that error holds no
    exit error, the process then exits with status 0.
   */
  lemma EmptyKeyInputStopsRun(logPath: string, st: Startup, lines: seq<seq<byte>>, scanErr: Option<Error>,
                              parse: seq<byte> -> Result<PublicKey, Error>,
                              listenErr: Option<Error>, closeErr: Option<Error>, sessionErr: Option<Error>)
    requires st.logOpenErr.None? && st.keys == LinesResult(lines, scanErr, parse)
    requires lines != [] && lines[0] == []
    ensures RunResult(logPath, st, listenErr, closeErr, sessionErr)
         == Some(Wrapped("failed to parse authorized keys file", Message(NoKeysMessage)))
    ensures ExitCode(RunResult(logPath, st, listenErr, closeErr, sessionErr)) == 0
  {
  }

  /**
    The recorded session error is `run`'s result exactly when start-up
    succeeded, the listener returned nil and `Close` succeeded; a failing
    `Close` gives a bare message without its cause; when the listener returns
    `ErrServerClosed` the result is nil whatever the session recorded.
   */
  lemma SessionErrorReachesResult(logPath: string, st: Startup,
                                  listenErr: Option<Error>, closeErr: Option<Error>, sessionErr: Option<Error>)
    requires StartupError(logPath, st).None?
    ensures listenErr.None? && closeErr.None? ==> RunResult(logPath, st, listenErr, closeErr, sessionErr) == sessionErr
    ensures listenErr.None? && closeErr.Some? ==> RunResult(logPath, st, listenErr, closeErr, sessionErr) == Some(Message("failed to "))
    ensures listenErr.Some? && Root(listenErr.value) == ServerClosed ==> RunResult(logPath, st, listenErr, closeErr, sessionErr).None?
    ensures listenErr.Some? && Root(listenErr.value) != ServerClosed ==> RunResult(logPath, st, listenErr, closeErr, sessionErr) == listenErr
  {
  }

  /**
    `main`'s exit status: 0 after a nil result; after an error, the exit code
    of the `*exec.ExitError` its chain ends in, and 0 for any other error.
   */
  function ExitCode(result: Option<Error>): (code: int)
    ensures code == (if result.Some? && Root(result.value).ExitError? then Root(result.value).code else 0)
  {
    if result.None? then 0
    else
      AsExitErrorFindsRoot(result.value);
      match AsExitError(result.value)
      case Some(ExitError(code, _)) => code
      case _ => 0
  }

  /**
    End to end: when start-up succeeds and a session wins the gate with a
    child that exits with code `c`, the program exits with `c` only if the
    listener returned nil and `Close` succeeded; a timeout, or a listener that
    reports `ErrServerClosed`, gives exit status 0.
   */
  lemma SessionExitStatus(logPath: string, st: Startup, ts: seq<Server.Trigger>,
                          listenErr: Option<Error>, closeErr: Option<Error>)
    requires StartupError(logPath, st).None?
    ensures var g := Server.Run(Server.Idle, ts);
      var code := ExitCode(RunResult(logPath, st, listenErr, closeErr, g.sessionErr));
      && ((ts != [] && ts[0].SessionTrigger? && ts[0].result.Some? && Root(ts[0].result.value).ExitError?
           && listenErr.None? && closeErr.None?) ==> code == Root(ts[0].result.value).code)
      && (ts != [] && ts[0].TimeoutTrigger? && listenErr.None? && closeErr.None? ==> code == 0)
      && (listenErr.Some? && Root(listenErr.value) == ServerClosed ==> code == 0)
  {
    var g := Server.Run(Server.Idle, ts);
    Server.FirstTriggerWins(ts);
    SessionErrorReachesResult(logPath, st, listenErr, closeErr, g.sessionErr);
  }
}
