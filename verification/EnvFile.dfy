/** Loading a .env file into the process environment. */
module EnvFile {
  import opened Wrappers
  import opened Strings
  import opened Config

  const NUL := 0 as char

  datatype Assignment = Assignment(key: string, value: string) {
    /** The operating system refuses other names and values; a refusal is ignored. */
    predicate Settable() {
      key != "" && '=' !in key && NUL !in key && NUL !in value
    }
  }

  /** What reading a file gives. */
  datatype ReadResult = Data(text: string) | Missing | Unreadable

  predicate Quoted(s: string, quote: char) {
    |s| >= 2 && s[0] == quote && s[|s| - 1] == quote
  }

  /** One pair of matching quotes around a value is dropped. */
  function Unquote(s: string): string {
    if Quoted(s, '"') || Quoted(s, '\'') then s[1..|s| - 1] else s
  }

  /** Blank lines, comments and lines without an equals sign assign nothing. */
  function ParseLine(line: string): Option<Assignment> {
    var t := TrimSpace(line);
    if t == "" || HasPrefix(t, "#") || '=' !in t then None
    else
      var i := Find(t, '=');
      Some(Assignment(TrimSpace(t[..i]), Unquote(TrimSpace(t[i + 1..]))))
  }

  function Assignments(lines: seq<string>): seq<Assignment> {
    if lines == [] then []
    else
      var last := ParseLine(lines[|lines| - 1]);
      Assignments(lines[..|lines| - 1]) + if last.Some? then [last.value] else []
  }

  function Parsed(text: string): seq<Assignment> {
    Assignments(Split(text, "\n"))
  }

  /** A variable that reads as non-empty is kept. */
  function Assigned(vars: Vars, a: Assignment): Vars {
    if Getenv(vars, a.key) == "" && a.Settable() then vars[a.key := a.value] else vars
  }

  function Applied(vars: Vars, assignments: seq<Assignment>): Vars {
    if assignments == [] then vars
    else Assigned(Applied(vars, assignments[..|assignments| - 1]), assignments[|assignments| - 1])
  }

  /** The variables after loading a file; an empty path and a missing or unreadable file change nothing. */
  function Loaded(vars: Vars, path: string, file: ReadResult): Vars {
    if path != "" && file.Data? then Applied(vars, Parsed(file.text)) else vars
  }

  class Process {
    var vars: Vars

    constructor (vars: Vars)
      ensures this.vars == vars
    {
      this.vars := vars;
    }

    /** Reports an error only for a file that exists and cannot be read. */
    method LoadEnv(path: string, file: ReadResult) returns (ok: bool)
      modifies this
      ensures vars == Loaded(old(vars), path, file)
      ensures ok == (path == "" || !file.Unreadable?)
    {
      if path == "" {
        return true;
      }
      if !file.Data? {
        return file.Missing?;
      }
      LoadLines(Split(file.text, "\n"));
      ok := true;
    }

    method LoadLines(lines: seq<string>)
      modifies this
      ensures vars == Applied(old(vars), Assignments(lines))
    {
      hide ParseLine, Assigned;
      for i := 0 to |lines|
        invariant vars == Applied(old(vars), Assignments(lines[..i]))
      {
        assert lines[..i + 1] == lines[..i] + [lines[i]];
        AssignmentsMore(lines[..i], lines[i]);
        if ParseLine(lines[i]).Some? {
          AppliedMore(old(vars), Assignments(lines[..i]), ParseLine(lines[i]).value);
        } else {
          assert Assignments(lines[..i]) + [] == Assignments(lines[..i]);
        }
        LoadLine(lines[i]);
      }
      assert lines[..|lines|] == lines;
    }

    method LoadLine(text: string)
      modifies this
      ensures vars == if ParseLine(text).Some? then Assigned(old(vars), ParseLine(text).value) else old(vars)
    {
      hide TrimSpace, Find;
      var line := TrimSpace(text);
      if line == "" || HasPrefix(line, "#") {
        return;
      }
      if '=' !in line {
        return;
      }
      var eq := Find(line, '=');
      var key, val := TrimSpace(line[..eq]), TrimSpace(line[eq + 1..]);
      if |val| >= 2 && ((val[0] == '"' && val[|val| - 1] == '"') || (val[0] == '\'' && val[|val| - 1] == '\'')) {
        val := val[1..|val| - 1];
      }
      if Getenv(vars, key) == "" {
        Setenv(key, val);
      }
    }

    method Setenv(key: string, value: string)
      modifies this
      ensures vars == if Assignment(key, value).Settable() then old(vars)[key := value] else old(vars)
    {
      if key != "" && '=' !in key && NUL !in key && NUL !in value {
        vars := vars[key := value];
      }
    }
  }

  lemma AssignmentsMore(lines: seq<string>, line: string)
    ensures Assignments(lines + [line]) ==
            Assignments(lines) + if ParseLine(line).Some? then [ParseLine(line).value] else []
  {
    assert (lines + [line])[..|lines|] == lines;
  }

  lemma AppliedMore(vars: Vars, assignments: seq<Assignment>, a: Assignment)
    ensures Applied(vars, assignments + [a]) == Assigned(Applied(vars, assignments), a)
  {
    assert (assignments + [a])[..|assignments|] == assignments;
  }

  // ----- the rule

  /** The first non-empty value a file gives a variable. */
  function FirstValue(assignments: seq<Assignment>, key: string): string {
    if assignments == [] then ""
    else
      var a := assignments[0];
      if a.key == key && a.Settable() && a.value != "" then a.value else FirstValue(assignments[1..], key)
  }

  lemma {:induction false} FirstValueMore(assignments: seq<Assignment>, a: Assignment, key: string)
    ensures FirstValue(assignments + [a], key) ==
            if FirstValue(assignments, key) != "" then FirstValue(assignments, key)
            else if a.key == key && a.Settable() then a.value else ""
    decreases |assignments|
  {
    if assignments == [] {
      assert assignments + [a] == [a];
    } else {
      assert (assignments + [a])[1..] == assignments[1..] + [a];
      FirstValueMore(assignments[1..], a, key);
    }
  }

  /** For every file and every environment: an existing non-empty value wins, otherwise the first non-empty
      assignment. */
  lemma {:induction false} FirstAssignmentWins(vars: Vars, assignments: seq<Assignment>, key: string)
    ensures Getenv(Applied(vars, assignments), key) ==
            if Getenv(vars, key) != "" then Getenv(vars, key) else FirstValue(assignments, key)
    decreases |assignments|
  {
    if assignments != [] {
      var n := |assignments| - 1;
      FirstAssignmentWins(vars, assignments[..n], key);
      assert assignments == assignments[..n] + [assignments[n]];
      FirstValueMore(assignments[..n], assignments[n], key);
    }
  }

  /** Loading does overwrite a variable that is present but empty: a present variable keeps its value if and
      only if that value is non-empty or the file gives it none. */
  lemma PresentKeptIff(vars: Vars, assignments: seq<Assignment>, key: string)
    requires key in vars
    ensures key in Applied(vars, assignments)
    ensures Applied(vars, assignments)[key] == vars[key] <==> vars[key] != "" || FirstValue(assignments, key) == ""
  {
    FirstAssignmentWins(vars, assignments, key);
    AppliedGrows(vars, assignments);
  }

  lemma {:induction false} AppliedGrows(vars: Vars, assignments: seq<Assignment>)
    ensures vars.Keys <= Applied(vars, assignments).Keys
    ensures forall a <- assignments :: a.Settable() ==> a.key in Applied(vars, assignments)
    decreases |assignments|
  {
    if assignments != [] {
      var n := |assignments| - 1;
      AppliedGrows(vars, assignments[..n]);
      assert assignments == assignments[..n] + [assignments[n]];
    }
  }

  lemma {:induction false} FirstValueCovers(assignments: seq<Assignment>, a: Assignment)
    requires a in assignments && a.Settable() && a.value != ""
    ensures FirstValue(assignments, a.key) != ""
    decreases |assignments|
  {
    if a != assignments[0] {
      FirstValueCovers(assignments[1..], a);
    }
  }

  lemma AssignedAgain(vars: Vars, assignments: seq<Assignment>, a: Assignment)
    requires a in assignments
    ensures Assigned(Applied(vars, assignments), a) == Applied(vars, assignments)
  {
    var all := Applied(vars, assignments);
    AppliedGrows(vars, assignments);
    if Getenv(all, a.key) == "" && a.Settable() {
      FirstAssignmentWins(vars, assignments, a.key);
      if a.value != "" {
        FirstValueCovers(assignments, a);
      }
    }
  }

  lemma {:induction false} AppliedAgain(vars: Vars, assignments: seq<Assignment>, some: seq<Assignment>)
    requires forall a <- some :: a in assignments
    ensures Applied(Applied(vars, assignments), some) == Applied(vars, assignments)
    decreases |some|
  {
    hide Assigned;
    if some != [] {
      AppliedAgain(vars, assignments, some[..|some| - 1]);
      AssignedAgain(vars, assignments, some[|some| - 1]);
    }
  }

  /** Loading the same file twice is loading it once. */
  lemma LoadingTwiceIsOnce(vars: Vars, path: string, file: ReadResult)
    ensures Loaded(Loaded(vars, path, file), path, file) == Loaded(vars, path, file)
  {
    if path != "" && file.Data? {
      AppliedAgain(vars, Parsed(file.text), Parsed(file.text));
    }
  }

  // ----- writing a file

  /** An assignment a file can express: a trimmed name that is no comment, and a value on one line. */
  predicate Writable(a: Assignment) {
    && a.Settable()
    && '\n' !in a.key && '\n' !in a.value
    && !IsSpace(a.key[0]) && !IsSpace(a.key[|a.key| - 1])
    && a.key[0] != '#'
  }

  function WriteLine(a: Assignment): string {
    a.key + "=\"" + a.value + "\""
  }

  function Write(assignments: seq<Assignment>): string {
    if assignments == [] then ""
    else if |assignments| == 1 then WriteLine(assignments[0])
    else WriteLine(assignments[0]) + "\n" + Write(assignments[1..])
  }

  lemma LineReadsBack(a: Assignment)
    requires Writable(a)
    ensures ParseLine(WriteLine(a)) == Some(a)
  {
    hide TrimSpace, Find;
    LineShape(a.key, a.value);
    QuotedShape(a.value);
    hide WriteLine, InQuotes;
    FindIs(WriteLine(a), '=', |a.key|);
    TrimKeeps(WriteLine(a));
    TrimKeeps(InQuotes(a.value));
    TrimKeeps(a.key);
  }

  function InQuotes(value: string): string {
    "\"" + value + "\""
  }

  lemma QuotedShape(value: string)
    ensures var q := InQuotes(value); |q| >= 2 && q[0] == q[|q| - 1] == '"' && q[1..|q| - 1] == value
  {
  }

  lemma LineShape(key: string, value: string)
    requires key != ""
    ensures var line, k := WriteLine(Assignment(key, value)), |key|;
            && |line| > k && line[0] == key[0] && line[|line| - 1] == '"'
            && line[..k] == key && line[k] == '=' && line[k + 1..] == InQuotes(value)
  {
  }

  lemma {:induction false} SplitFirst(line: string, rest: string, i: nat)
    requires '\n' !in line && i <= |line|
    ensures SplitFrom(line + "\n" + rest, "\n", i) == [line] + SplitFrom(rest, "\n", 0)
    decreases |line| - i
  {
    var s := line + "\n" + rest;
    if i == |line| {
      assert s[i..i + 1] == "\n" && s[..i] == line && s[i + 1..] == rest;
    } else {
      assert s[i..i + 1] == [line[i]];
      assert line[i] in line;
      SplitFirst(line, rest, i + 1);
    }
  }

  lemma {:induction false} SplitOnly(line: string, i: nat)
    requires '\n' !in line && i <= |line|
    ensures SplitFrom(line, "\n", i) == [line]
    decreases |line| - i
  {
    if i < |line| {
      assert line[i..i + 1] == [line[i]];
      assert line[i] in line;
      SplitOnly(line, i + 1);
    }
  }

  lemma {:induction false} AssignmentsFirst(line: string, lines: seq<string>)
    ensures Assignments([line] + lines) ==
            (if ParseLine(line).Some? then [ParseLine(line).value] else []) + Assignments(lines)
    decreases |lines|
  {
    if lines == [] {
      assert [line] + lines == [line] && [line][..0] == [];
    } else {
      var n := |lines| - 1;
      AssignmentsFirst(line, lines[..n]);
      assert ([line] + lines)[..|lines|] == [line] + lines[..n];
    }
  }

  /** What has been written is read back, name by name and value by value, in order. */
  lemma {:induction false} FileReadsBack(assignments: seq<Assignment>)
    requires forall a <- assignments :: Writable(a)
    ensures Parsed(Write(assignments)) == assignments
    decreases |assignments|
  {
    if assignments == [] {
      assert Split("", "\n") == [""];
      assert ParseLine("").None?;
      assert [""][..0] == [];
    } else {
      var a := assignments[0];
      var line := WriteLine(a);
      LineReadsBack(a);
      assert '\n' !in line;
      hide WriteLine, ParseLine, Writable, SplitFrom;
      assert Assignments([]) == [];
      hide Assignments;
      if |assignments| == 1 {
        SplitOnly(line, 0);
        AssignmentsFirst(line, []);
        assert [line] + [] == [line];
      } else {
        SplitFirst(line, Write(assignments[1..]), 0);
        AssignmentsFirst(line, Split(Write(assignments[1..]), "\n"));
        FileReadsBack(assignments[1..]);
      }
    }
  }

  /** Loading what has been written into an empty environment gives every name its first non-empty value. */
  lemma WrittenFileLoads(assignments: seq<Assignment>, path: string, key: string)
    requires path != "" && forall a <- assignments :: Writable(a)
    ensures Getenv(Loaded(map[], path, Data(Write(assignments))), key) == FirstValue(assignments, key)
  {
    FileReadsBack(assignments);
    FirstAssignmentWins(map[], assignments, key);
  }

  lemma {:induction false} OnlyValue(assignments: seq<Assignment>, a: Assignment)
    requires a in assignments && a.Settable()
    requires forall b <- assignments :: b.key == a.key ==> b == a
    ensures FirstValue(assignments, a.key) == a.value
    decreases |assignments|
  {
    if a.value != "" && a != assignments[0] {
      OnlyValue(assignments[1..], a);
    } else if a.value == "" {
      NoValue(assignments, a);
    }
  }

  lemma {:induction false} NoValue(assignments: seq<Assignment>, a: Assignment)
    requires a.value == "" && forall b <- assignments :: b.key == a.key ==> b == a
    ensures FirstValue(assignments, a.key) == ""
    decreases |assignments|
  {
    if assignments != [] {
      NoValue(assignments[1..], a);
    }
  }

  /** A name written once reads back verbatim, whatever its value and whatever else the file holds. */
  lemma WrittenValueReadsBack(assignments: seq<Assignment>, path: string, a: Assignment)
    requires path != "" && forall b <- assignments :: Writable(b)
    requires a in assignments && forall b <- assignments :: b.key == a.key ==> b == a
    ensures Getenv(Loaded(map[], path, Data(Write(assignments))), a.key) == a.value
  {
    WrittenFileLoads(assignments, path, a.key);
    OnlyValue(assignments, a);
  }
}
