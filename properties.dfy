/**
 * The `server.properties` reader inside `setup_config`: every line read from
 * the file is either a comment (its first character is `#`) or a
 * `key=value` assignment; the key is the text before the first `=`, the value
 * the stripped text between the first and a possible second `=`, and a later
 * assignment to a key replaces an earlier one. A line that is not a comment
 * and has no `=` (a blank line included) makes the reader fail.
 */
module Properties {
  import opened Wrappers
  import opened Text

  type PropertyMap = map<string, string>

  /** The `IndexError` raised on `data[1]`, with the index of the line that raised it. */
  datatype ParseError = MissingSeparator(line: nat)

  predicate IsComment(line: string) {
    StartsWith(line, "#")
  }

  /** A line the reader cannot take apart. */
  predicate Malformed(line: string) {
    !IsComment(line) && '=' !in line
  }

  /** `data[0]` where `data = line.split("=")`. */
  function KeyOf(line: string): string {
    Split(line, '=')[0]
  }

  /** `data[1].strip()` where `data = line.split("=")`. */
  function ValueOf(line: string): string
    requires '=' in line
  {
    Strip(Split(line, '=')[1])
  }

  /** The reader's result on a sequence of lines, one line at a time from the first. */
  function Parse(lines: seq<string>): Result<PropertyMap, ParseError>
    decreases |lines|
  {
    if lines == [] then Ok(map[])
    else
      var n := |lines| - 1;
      match Parse(lines[..n])
      case Err(e) => Err(e)
      case Ok(props) =>
        var line := lines[n];
        if IsComment(line) then Ok(props)
        else if '=' !in line then Err(MissingSeparator(n))
        else Ok(props[KeyOf(line) := ValueOf(line)])
  }

  /** The reading loop: `props` starts empty and each assignment line is written into it. */
  method ParseLines(lines: seq<string>) returns (r: Result<PropertyMap, ParseError>)
    ensures r == Parse(lines)
    ensures r.Ok? ==> r.value.Keys == AssignedKeys(lines)
  {
    var props: PropertyMap := map[];
    var i := 0;
    while i < |lines|
      invariant 0 <= i <= |lines|
      invariant Parse(lines[..i]) == Ok(props)
    {
      assert lines[..i + 1][..i] == lines[..i];
      var line := lines[i];
      if StartsWith(line, "#") {
        i := i + 1;
        continue;
      }
      var data := Split(line, '=');
      if |data| < 2 {
        r := Err(MissingSeparator(i));
        assert lines[..i + 1] == lines[..i] + [line];
        PrefixError(lines, i + 1);
        return;
      }
      var key, value := data[0], Strip(data[1]);
      props := props[key := value];
      i := i + 1;
    }
    assert lines[..i] == lines;
    r := Ok(props);
    Domain(lines, props);
  }

  /** Once a prefix fails, so does every longer input, with the same error. */
  lemma {:induction false} PrefixError(lines: seq<string>, k: nat)
    requires k <= |lines| && Parse(lines[..k]).Err?
    ensures Parse(lines) == Parse(lines[..k])
    decreases |lines| - k
  {
    if k < |lines| {
      assert lines[..k + 1][..k] == lines[..k];
      PrefixError(lines, k + 1);
    } else {
      assert lines[..k] == lines;
    }
  }

  /** Reading fails exactly when some line is neither a comment nor contains
      `=`, and the error names the first such line. */
  lemma {:induction false} FailsAtFirstMalformed(lines: seq<string>)
    ensures Parse(lines).Err? <==> exists i :: 0 <= i < |lines| && Malformed(lines[i])
    ensures Parse(lines).Err? ==>
              var i := Parse(lines).error.line;
              i < |lines| && Malformed(lines[i]) && forall j :: 0 <= j < i ==> !Malformed(lines[j])
    decreases |lines|
  {
    if lines != [] {
      var n := |lines| - 1;
      var prefix := lines[..n];
      FailsAtFirstMalformed(prefix);
      assert forall j :: 0 <= j < n ==> prefix[j] == lines[j];
    }
  }

  /** The keys of the assignment lines. */
  function AssignedKeys(lines: seq<string>): set<string> {
    set i | 0 <= i < |lines| && !IsComment(lines[i]) :: KeyOf(lines[i])
  }

  /** A successful read holds one entry per distinct key among the
      non-comment lines, and nothing else: comments contribute no entry. */
  lemma {:induction false} Domain(lines: seq<string>, props: PropertyMap)
    requires Parse(lines) == Ok(props)
    ensures props.Keys == AssignedKeys(lines)
    decreases |lines|
  {
    if lines != [] {
      var n := |lines| - 1;
      var prefix := lines[..n];
      match Parse(prefix)
      case Ok(before) =>
        Domain(prefix, before);
        assert forall j :: 0 <= j < n ==> prefix[j] == lines[j];
        if IsComment(lines[n]) {
          assert AssignedKeys(lines) == AssignedKeys(prefix);
        } else {
          assert AssignedKeys(lines) == AssignedKeys(prefix) + {KeyOf(lines[n])};
        }
    }
  }

  /** The entry for a key is the value of the last line that assigns it:
      later lines overwrite earlier ones. */
  lemma {:induction false} LastAssignmentWins(lines: seq<string>, props: PropertyMap, i: nat)
    requires Parse(lines) == Ok(props)
    requires i < |lines| && !IsComment(lines[i])
    requires forall j :: i < j < |lines| && !IsComment(lines[j]) ==> KeyOf(lines[j]) != KeyOf(lines[i])
    ensures '=' in lines[i] && KeyOf(lines[i]) in props && props[KeyOf(lines[i])] == ValueOf(lines[i])
    decreases |lines|
  {
    FailsAtFirstMalformed(lines);
    assert !Malformed(lines[i]);
    var n := |lines| - 1;
    var prefix := lines[..n];
    match Parse(prefix)
    case Ok(before) =>
      if i < n {
        assert prefix[i] == lines[i];
        assert forall j :: i < j < n ==> prefix[j] == lines[j];
        LastAssignmentWins(prefix, before, i);
      }
  }

  /** A comment line appended to the input changes nothing. */
  lemma CommentContributesNothing(lines: seq<string>, comment: string)
    requires IsComment(comment)
    ensures Parse(lines + [comment]) == Parse(lines)
  {
  }

  /** With `i` the first `=` of a line and `j` the next `=` after it (or the
      end of the line), the key is the unstripped text before `i` and the
      value is the stripped text strictly between `i` and `j`; whatever follows
      a second `=` is dropped. */
  lemma LineFields(line: string, i: nat, j: nat)
    requires i < j <= |line| && line[i] == '='
    requires '=' !in line[..i] && '=' !in line[i + 1..j]
    requires j == |line| || line[j] == '='
    ensures '=' in line
    ensures KeyOf(line) == line[..i]
    ensures ValueOf(line) == Strip(line[i + 1..j])
  {
    SplitFirst(line, '=', i);
    var rest := line[i + 1..];
    assert rest[..j - i - 1] == line[i + 1..j];
    SplitFirst(rest, '=', j - i - 1);
  }

  /** One more assignment line writes its key, overwriting any earlier value. */
  lemma AppendAssignment(lines: seq<string>, props: PropertyMap, line: string)
    requires Parse(lines) == Ok(props) && !IsComment(line) && '=' in line
    ensures Parse(lines + [line]) == Ok(props[KeyOf(line) := ValueOf(line)])
  {
  }

  /** A line built as `key=value` from two `=`-free parts reads back as that key and the stripped value. */
  lemma AssignmentLine(key: string, value: string)
    requires '=' !in key && '=' !in value && !StartsWith(key, "#")
    ensures !IsComment(key + "=" + value) && '=' in key + "=" + value
    ensures KeyOf(key + "=" + value) == key
    ensures ValueOf(key + "=" + value) == Strip(value)
  {
    var line := key + "=" + value;
    assert line[..|key|] == key;
    assert line[|key| + 1..|line|] == value;
    assert key == [] ==> line[0] == '=';
    assert key != [] ==> line[..1] == key[..1];
    LineFields(line, |key|, |line|);
  }

  /** A line whose first character is whitespace is never a comment, even
      when `#` follows: on its own it reads as one assignment. */
  lemma IndentedLineIsNotComment(line: string)
    requires |line| > 0 && IsSpace(line[0]) && '=' in line
    ensures Parse([line]) == Ok(map[KeyOf(line) := ValueOf(line)])
  {
  }

  /** A blank line, newline included, makes reading fail at that line. */
  lemma BlankLineFails(lines: seq<string>, blank: string)
    requires AllSpace(blank)
    ensures Parse(lines + [blank]).Err?
    ensures Parse(lines).Ok? ==> Parse(lines + [blank]) == Err(MissingSeparator(|lines|))
  {
  }

  /** A comment followed by two assignment lines. */
  lemma CommentThenTwoAssignments(comment: string, first: string, second: string)
    requires IsComment(comment)
    requires !IsComment(first) && '=' in first && !IsComment(second) && '=' in second
    ensures Parse([comment, first, second])
         == Ok(map[KeyOf(first) := ValueOf(first)][KeyOf(second) := ValueOf(second)])
  {
    CommentContributesNothing([], comment);
    assert [] + [comment] == [comment];
    AppendAssignment([comment], map[], first);
    assert [comment] + [first] == [comment, first];
    AppendAssignment([comment, first], map[KeyOf(first) := ValueOf(first)], second);
    assert [comment, first] + [second] == [comment, first, second];
  }

  /** A comment followed by the two keys the wizard needs reads into exactly
      those two entries, with their values stripped. */
  lemma TypicalFile(comment: string, ip: string, port: string)
    requires IsComment(comment) && '=' !in ip && '=' !in port
    ensures Parse([comment, "server-ip=" + ip, "server-port=" + port])
         == Ok(map["server-ip" := Strip(ip), "server-port" := Strip(port)])
  {
    var ipKey, portKey := "server-ip", "server-port";
    assert ipKey[0] == 's' && portKey[0] == 's';
    assert "server-ip=" + ip == ipKey + "=" + ip;
    assert "server-port=" + port == portKey + "=" + port;
    AssignmentLine(ipKey, ip);
    AssignmentLine(portKey, port);
    CommentThenTwoAssignments(comment, ipKey + "=" + ip, portKey + "=" + port);
  }
}
