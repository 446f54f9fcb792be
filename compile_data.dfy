/**
 * The training-data script (scripts/compile_data.py): two JSONL files are
 * loaded, skipping blank lines, concatenated, and written out one record per
 * line. A file is its list of lines (each with its newline), `None` when it
 * does not exist; `json.loads` and `json.dumps` are parameters.
 */
module CompileData {
  import opened Wrappers
  import opened Json
  import opened Text

  /** What `json.loads` gives for a line: the record, or `None` when it raises. */
  type Parser = string -> Option<Json>

  /** The records of the lines, blank lines skipped; `None` once a non-blank line fails to parse. */
  function LoadLines(lines: seq<string>, parse: Parser): Option<seq<Json>> {
    if lines == [] then Some([])
    else
      var init := LoadLines(lines[..|lines| - 1], parse);
      var line := lines[|lines| - 1];
      if init.None? then None
      else if PyBlank(line) then init
      else if parse(line).None? then None
      else Some(init.value + [parse(line).value])
  }

  /** `load_jsonl`: a missing file gives no records. */
  function LoadSpec(file: Option<seq<string>>, parse: Parser): Option<seq<Json>> {
    if file.None? then Some([]) else LoadLines(file.value, parse)
  }

  /** The lines that are not blank after `strip`. */
  function NonBlank(lines: seq<string>): seq<string> {
    if lines == [] then []
    else NonBlank(lines[..|lines| - 1]) + (if PyBlank(lines[|lines| - 1]) then [] else [lines[|lines| - 1]])
  }

  /** A failure in a prefix is a failure of the whole file. */
  lemma {:induction false} FailureOfPrefix(lines: seq<string>, k: nat, parse: Parser)
    requires k <= |lines| && LoadLines(lines[..k], parse).None?
    ensures LoadLines(lines, parse).None?
    decreases |lines| - k
  {
    if k < |lines| {
      assert lines[..k + 1][..k] == lines[..k];
      FailureOfPrefix(lines, k + 1, parse);
    } else {
      assert lines[..k] == lines;
    }
  }

  /** A loaded file has one record per non-blank line, each the parse of that line, in file order. */
  lemma {:induction false} LoadLinesFacts(lines: seq<string>, parse: Parser)
    requires LoadLines(lines, parse).Some?
    ensures var rs := LoadLines(lines, parse).value;
      && |rs| == |NonBlank(lines)| <= |lines|
      && forall i | 0 <= i < |rs| :: parse(NonBlank(lines)[i]) == Some(rs[i])
    decreases |lines|
  {
    if lines != [] {
      LoadLinesFacts(lines[..|lines| - 1], parse);
    }
  }

  /** Loading two line lists one after the other gives the first's records then the second's. */
  lemma {:induction false} LoadLinesConcat(a: seq<string>, b: seq<string>, parse: Parser)
    requires LoadLines(a, parse).Some? && LoadLines(b, parse).Some?
    ensures LoadLines(a + b, parse) == Some(LoadLines(a, parse).value + LoadLines(b, parse).value)
    decreases |b|
  {
    if b == [] {
      assert a + b == a;
      assert LoadLines(a, parse).value + [] == LoadLines(a, parse).value;
    } else {
      var b' := b[..|b| - 1];
      assert (a + b)[..|a + b| - 1] == a + b';
      assert (a + b)[|a + b| - 1] == b[|b| - 1];
      assert LoadLines(b', parse).Some?;
      LoadLinesConcat(a, b', parse);
      var line := b[|b| - 1];
      if !PyBlank(line) {
        var ra, rb := LoadLines(a, parse).value, LoadLines(b', parse).value;
        assert ra + rb + [parse(line).value] == ra + (rb + [parse(line).value]);
      }
    }
  }

  /** `load_jsonl`, line by line as the script does it. */
  method LoadJsonl(file: Option<seq<string>>, parse: Parser) returns (records: Option<seq<Json>>)
    ensures records == LoadSpec(file, parse)
  {
    if file.None? {
      return Some([]);
    }
    var lines := file.value;
    var acc: seq<Json> := [];
    var i := 0;
    while i < |lines|
      invariant 0 <= i <= |lines|
      invariant LoadLines(lines[..i], parse) == Some(acc)
    {
      assert lines[..i + 1][..i] == lines[..i];
      if !PyBlank(lines[i]) {
        var record := parse(lines[i]);
        if record.None? {
          FailureOfPrefix(lines, i + 1, parse);
          return None;
        }
        acc := acc + [record.value];
      }
      i := i + 1;
    }
    assert lines[..i] == lines;
    return Some(acc);
  }

  /** The output file's lines, `json.dumps(record) + "\n"` for each record in order. */
  function OutputLines(records: seq<Json>, dumps: Json -> string): seq<string> {
    seq(|records|, i requires 0 <= i < |records| => dumps(records[i]) + "\n")
  }

  /** The output file's text. */
  function Concat(lines: seq<string>): string {
    if lines == [] then "" else Concat(lines[..|lines| - 1]) + lines[|lines| - 1]
  }

  /** The write loop of `main`. */
  method WriteJsonl(records: seq<Json>, dumps: Json -> string) returns (text: string)
    ensures text == Concat(OutputLines(records, dumps))
  {
    text := "";
    var i := 0;
    while i < |records|
      invariant 0 <= i <= |records|
      invariant text == Concat(OutputLines(records[..i], dumps))
    {
      assert OutputLines(records[..i + 1], dumps)[..i] == OutputLines(records[..i], dumps);
      text := text + dumps(records[i]) + "\n";
      i := i + 1;
    }
    assert records[..i] == records;
  }

  /** How many newlines a text holds. */
  function Newlines(s: string): nat {
    if s == [] then 0 else Newlines(s[..|s| - 1]) + (if s[|s| - 1] == '\n' then 1 else 0)
  }

  lemma {:induction false} NewlinesConcat(a: string, b: string)
    ensures Newlines(a + b) == Newlines(a) + Newlines(b)
    decreases |b|
  {
    if b == [] {
      assert a + b == a;
    } else {
      assert (a + b)[..|a + b| - 1] == a + b[..|b| - 1];
      NewlinesConcat(a, b[..|b| - 1]);
    }
  }

  /** `json.dumps` without `indent` puts no raw newline in a record, so the output has one line per record. */
  lemma {:induction false} OneLinePerRecord(records: seq<Json>, dumps: Json -> string)
    requires forall r :: Newlines(dumps(r)) == 0
    ensures Newlines(Concat(OutputLines(records, dumps))) == |records|
    decreases |records|
  {
    if records != [] {
      var init := records[..|records| - 1];
      var last := records[|records| - 1];
      assert OutputLines(records, dumps)[..|records| - 1] == OutputLines(init, dumps);
      OneLinePerRecord(init, dumps);
      NewlinesConcat(Concat(OutputLines(init, dumps)), dumps(last) + "\n");
      NewlinesConcat(dumps(last), "\n");
    }
  }

  /**
   * Reading the output back gives the merged records again, provided
   * `json.loads` inverts `json.dumps` and a dumped record is never blank.
   */
  lemma {:induction false} OutputReadsBack(records: seq<Json>, dumps: Json -> string, parse: Parser)
    requires forall r :: parse(dumps(r) + "\n") == Some(r) && !PyBlank(dumps(r) + "\n")
    ensures LoadLines(OutputLines(records, dumps), parse) == Some(records)
    decreases |records|
  {
    if records != [] {
      var init := records[..|records| - 1];
      var last := records[|records| - 1];
      assert OutputLines(records, dumps)[..|records| - 1] == OutputLines(init, dumps);
      assert OutputLines(records, dumps)[|records| - 1] == dumps(last) + "\n";
      OutputReadsBack(init, dumps, parse);
      assert records == init + [last];
    }
  }

  /** What `main` produces: the output text and the count it reports. */
  datatype Compiled = Compiled(output: string, merged: nat)

  /** `main`: guidelines first, then user responses, written in that order. */
  method CompileTrainingData(guidelines: Option<seq<string>>, userResponses: Option<seq<string>>,
                             parse: Parser, dumps: Json -> string) returns (result: Option<Compiled>)
    ensures var g := LoadSpec(guidelines, parse);
      var u := LoadSpec(userResponses, parse);
      && (result.Some? <==> g.Some? && u.Some?)
      && (result.Some? ==>
            && result.value.output == Concat(OutputLines(g.value + u.value, dumps))
            && result.value.merged == |g.value| + |u.value|)
  {
    var g := LoadJsonl(guidelines, parse);
    if g.None? {
      return None;
    }
    var u := LoadJsonl(userResponses, parse);
    if u.None? {
      return None;
    }
    var merged := g.value + u.value;
    var text := WriteJsonl(merged, dumps);
    return Some(Compiled(text, |merged|));
  }
}
