/** The lines a .env file may consist of, and what they mean: settings in any of three forms with any white space,
    and lines that set nothing. */
module EnvLines {
  import opened Wrappers
  import opened Strings
  import opened Config
  import opened EnvFile

  datatype Form = Plain | DoubleQuoted | SingleQuoted

  /** A setting, with the white space around it and around its equals sign, or a line that sets nothing. */
  datatype Item =
    | Setting(before: string, key: string, left: string, right: string, value: string, form: Form, after: string)
    | Silent(line: string)

  function Raw(value: string, form: Form): string {
    match form
    case Plain => value
    case DoubleQuoted => "\"" + value + "\""
    case SingleQuoted => "'" + value + "'"
  }

  function Core(it: Item): string
    requires it.Setting?
  {
    it.key + it.left + "=" + it.right + Raw(it.value, it.form)
  }

  function ItemText(it: Item): string {
    match it
    case Silent(line) => line
    case Setting(before, _, _, _, _, _, after) => before + Core(it) + after
  }

  predicate Trimmed(s: string) {
    s == "" || (!IsSpace(s[0]) && !IsSpace(s[|s| - 1]))
  }

  /** A value that can stand without quotes: it does not look as if it had some. A quote at one end only, or different
      ones at its ends, belong to the value. */
  predicate Unquoted(value: string) {
    Trimmed(value) && !(|value| >= 2 && value[0] == value[|value| - 1] && value[0] in "\"'")
  }

  /** Nothing but white space before a number sign. */
  predicate Commented(line: string) {
    exists i :: 0 <= i < |line| && line[i] == '#' && Blank(line[..i])
  }

  predicate SetsNothing(line: string) {
    Blank(line) || Commented(line) || '=' !in line
  }

  predicate ItemOk(it: Item) {
    && '\n' !in ItemText(it)
    && match it
       case Silent(line) => SetsNothing(line)
       case Setting(before, key, left, right, value, form, after) =>
         && Blank(before) && Blank(left) && Blank(right) && Blank(after)
         && key != "" && Trimmed(key) && '=' !in key && key[0] != '#'
         && (form.Plain? ==> Unquoted(value))
  }

  // ----- one line

  lemma UnquoteIs(value: string, form: Form)
    requires form.Plain? ==> Unquoted(value)
    ensures Unquote(Raw(value, form)) == value
    ensures Trimmed(Raw(value, form))
  {
    if form.DoubleQuoted? {
      QuotedShape(value);
    } else if form.SingleQuoted? {
      var q := "'" + value + "'";
      assert q[1..|q| - 1] == value;
    }
  }

  lemma BlankHasNoEquals(s: string)
    requires Blank(s)
    ensures '=' !in s
  {
  }

  lemma CoreShape(it: Item)
    requires it.Setting? && '=' !in it.key && Blank(it.left)
    ensures var t, k := Core(it), |it.key| + |it.left|;
            && k < |t| && t[k] == '=' && t[..k] == it.key + it.left && '=' !in t[..k]
            && t[k + 1..] == it.right + Raw(it.value, it.form)
  {
    BlankHasNoEquals(it.left);
    hide Raw, Blank;
    var t, k := Core(it), |it.key| + |it.left|;
    assert t == (it.key + it.left) + ("=" + (it.right + Raw(it.value, it.form)));
    assert t[..k] == it.key + it.left;
  }

  /** The line without the white space around it. A setting without a value ends with its equals sign. */
  lemma TrimmedLine(it: Item) returns (t: string)
    requires ItemOk(it) && it.Setting?
    ensures TrimSpace(ItemText(it)) == t
    ensures var k := |it.key| + |it.left|;
            && k < |t| && t[k] == '=' && t[..k] == it.key + it.left && '=' !in t[..k]
            && t[k + 1..] == (if Raw(it.value, it.form) == "" then "" else it.right + Raw(it.value, it.form))
            && t[0] == it.key[0]
  {
    var raw, k := Raw(it.value, it.form), |it.key| + |it.left|;
    UnquoteIs(it.value, it.form);
    CoreShape(it);
    if raw != "" {
      t := Core(it);
      assert t[0] == it.key[0] && t[|t| - 1] == raw[|raw| - 1];
      hide Core, Raw, Blank;
      TrimSurrounded(it.before, t, it.after);
    } else {
      t := it.key + it.left + "=";
      BlankHasNoEquals(it.left);
      assert t[..k] == it.key + it.left && t[k + 1..] == "";
      assert ItemText(it) == it.before + t + (it.right + it.after);
      hide Core, Raw;
      TrimSurrounded(it.before, t, it.right + it.after);
    }
  }

  lemma KeyTrimmed(key: string, left: string)
    requires key != "" && Trimmed(key) && Blank(left)
    ensures TrimSpace(key + left) == key
  {
    TrimSurrounded("", key, left);
    assert "" + key + left == key + left;
  }

  lemma RawTrimmed(right: string, raw: string)
    requires Trimmed(raw) && Blank(right)
    ensures TrimSpace(if raw == "" then "" else right + raw) == raw
  {
    if raw == "" {
      BlankTrimmed("");
    } else {
      TrimSurrounded(right, raw, "");
      assert right + raw + "" == right + raw;
    }
  }

  lemma ParsedAt(line: string, t: string, k: nat, key: string, raw: string)
    requires TrimSpace(line) == t && k < |t| && t[k] == '=' && '=' !in t[..k] && t[0] != '#'
    requires TrimSpace(t[..k]) == key && TrimSpace(t[k + 1..]) == raw
    ensures ParseLine(line) == Some(Assignment(key, Unquote(raw)))
  {
    hide TrimSpace, Unquote, Find;
    FindIs(t, '=', k);
  }

  /** A setting in any form and with any white space reads as its name and its value. */
  lemma SettingReads(it: Item)
    requires ItemOk(it) && it.Setting?
    ensures ParseLine(ItemText(it)) == Some(Assignment(it.key, it.value))
  {
    var t := TrimmedLine(it);
    UnquoteIs(it.value, it.form);
    KeyTrimmed(it.key, it.left);
    RawTrimmed(it.right, Raw(it.value, it.form));
    hide ItemText, Core, Raw, Unquote, Blank, TrimSpace, ParseLine, Trimmed;
    ParsedAt(ItemText(it), t, |it.key| + |it.left|, it.key, Raw(it.value, it.form));
  }

  lemma {:induction false} LeftBlank(s: string) returns (before: string)
    ensures Blank(before) && s == before + TrimLeft(s)
  {
    if s != "" && IsSpace(s[0]) {
      var rest := LeftBlank(s[1..]);
      before := [s[0]] + rest;
      assert TrimLeft(s) == TrimLeft(s[1..]);
      hide TrimLeft;
      assert s == [s[0]] + (rest + TrimLeft(s[1..]));
    } else {
      before := "";
    }
  }

  lemma {:induction false} RightBlank(s: string) returns (after: string)
    ensures Blank(after) && s == TrimRight(s) + after
  {
    if s != "" && IsSpace(s[|s| - 1]) {
      var rest := RightBlank(s[..|s| - 1]);
      after := rest + [s[|s| - 1]];
      assert TrimRight(s) == TrimRight(s[..|s| - 1]);
      hide TrimRight;
      assert s == TrimRight(s[..|s| - 1]) + rest + [s[|s| - 1]];
    } else {
      after := "";
    }
  }

  lemma {:induction false} TrimLeftStarts(s: string)
    ensures TrimLeft(s) != "" ==> !IsSpace(TrimLeft(s)[0])
  {
    if s != "" && IsSpace(s[0]) {
      TrimLeftStarts(s[1..]);
    }
  }

  /** A line sets nothing exactly when it is blank, a comment, or without an equals sign. */
  lemma SilentIff(line: string)
    ensures ParseLine(line).None? <==> SetsNothing(line)
  {
    var before := LeftBlank(line);
    var after := RightBlank(TrimLeft(line));
    var t := TrimSpace(line);
    TrimLeftStarts(line);
    assert line == before + TrimLeft(line) && TrimLeft(line) == t + after;
    hide TrimSpace, TrimLeft, TrimRight;
    BlankHasNoEquals(before);
    BlankHasNoEquals(after);
    LineParts(line, before, t, after);
    hide Find, Unquote;
  }

  lemma LineParts(line: string, before: string, t: string, after: string)
    requires Blank(before) && Blank(after) && line == before + (t + after)
    requires t + after != "" ==> !IsSpace((t + after)[0])
    ensures t == "" <==> Blank(line)
    ensures t != "" ==> (HasPrefix(t, "#") <==> Commented(line))
    ensures '=' in t <==> '=' in line
  {
    BlankHasNoEquals(before);
    BlankHasNoEquals(after);
    if t == "" {
      assert after == "";
    } else {
      assert line[|before|] == t[0] && t[0] in line;
      assert line[..|before|] == before;
      CommentStarts(line, |before|);
    }
  }

  lemma CommentStarts(line: string, n: nat)
    requires n < |line| && Blank(line[..n]) && !IsSpace(line[n])
    ensures Commented(line) <==> line[n] == '#'
  {
    forall i | n < i <= |line|
      ensures !Blank(line[..i])
    {
      assert line[..i][n] == line[n];
    }
    forall i | 0 <= i < n
      ensures IsSpace(line[i])
    {
      assert line[..n][i] == line[i];
    }
  }

  // ----- whole files

  function ItemsText(items: seq<Item>): string {
    if items == [] then ""
    else if |items| == 1 then ItemText(items[0])
    else ItemText(items[0]) + "\n" + ItemsText(items[1..])
  }

  /** The settings of a file, in order. */
  function Meaning(items: seq<Item>): seq<Assignment> {
    if items == [] then []
    else (if items[0].Setting? then [Assignment(items[0].key, items[0].value)] else []) + Meaning(items[1..])
  }

  lemma ItemReads(it: Item)
    requires ItemOk(it)
    ensures ParseLine(ItemText(it)) == if it.Setting? then Some(Assignment(it.key, it.value)) else None
  {
    if it.Setting? {
      SettingReads(it);
    } else {
      SilentIff(it.line);
    }
  }

  /** Whatever a file consists of, what is read from it is its settings, in order. */
  lemma {:induction false} ItemsRead(items: seq<Item>)
    requires forall it <- items :: ItemOk(it)
    ensures Parsed(ItemsText(items)) == Meaning(items)
    decreases |items|
  {
    if items == [] {
      FileReadsBack([]);
    } else {
      var it := items[0];
      ItemReads(it);
      assert ItemOk(it);
      assert '\n' !in ItemText(it);
      hide ItemText, ParseLine, ItemOk, SplitFrom;
      assert Assignments([]) == [];
      hide Assignments;
      if |items| == 1 {
        SplitOnly(ItemText(it), 0);
        AssignmentsFirst(ItemText(it), []);
        assert [ItemText(it)] + [] == [ItemText(it)];
        assert Meaning(items[1..]) == [];
      } else {
        SplitFirst(ItemText(it), ItemsText(items[1..]), 0);
        AssignmentsFirst(ItemText(it), Split(ItemsText(items[1..]), "\n"));
        ItemsRead(items[1..]);
      }
    }
  }

  /** Loading such a file: a variable that is set to something keeps it, and otherwise gets the first non-empty value
      the file has for it. */
  lemma ItemsLoad(vars: Vars, path: string, items: seq<Item>, key: string)
    requires path != "" && forall it <- items :: ItemOk(it)
    ensures Getenv(Loaded(vars, path, Data(ItemsText(items))), key) ==
            if Getenv(vars, key) != "" then Getenv(vars, key) else FirstValue(Meaning(items), key)
  {
    ItemsRead(items);
    FirstAssignmentWins(vars, Meaning(items), key);
  }

  /** Files that cannot be loaded change nothing, nor do names and values the operating system refuses. */
  lemma NothingLoaded(vars: Vars, path: string, file: ReadResult, a: Assignment)
    ensures path == "" || file.Missing? || file.Unreadable? ==> Loaded(vars, path, file) == vars
    ensures a.key == "" || NUL in a.key || NUL in a.value ==> Assigned(vars, a) == vars
  {
  }

  /** A name that a setting can have. */
  predicate Nameable(key: string) {
    key != "" && Trimmed(key) && '=' !in key && '\n' !in key && NUL !in key && key[0] != '#'
  }

  /** A plain setting of a service's image is the image the service is started with, whatever its default. */
  lemma ImageSetting(path: string, service: string, default: string, key: string, value: string)
    requires path != "" && NamedAfter(key, service, "_IMAGE") && Nameable(key)
    requires value != "" && Unquoted(value) && '\n' !in value && NUL !in value
    ensures GetLocalImage(Loaded(map[], path, Data(key + "=" + value)), service, default) == value
  {
    var it := Setting("", key, "", "", value, Plain, "");
    PlainItem(key, value);
    ItemsLoad(map[], path, [it], key);
    OneValue(key, value);
    hide ItemOk, Loaded, GetLocalImage, NamedAfter;
    LocalImageIs(Loaded(map[], path, Data(key + "=" + value)), service, default, key);
  }

  lemma PlainItem(key: string, value: string)
    requires Nameable(key) && Unquoted(value) && '\n' !in value
    ensures var it := Setting("", key, "", "", value, Plain, "");
            ItemOk(it) && ItemsText([it]) == key + "=" + value && Meaning([it]) == [Assignment(key, value)]
  {
    var it := Setting("", key, "", "", value, Plain, "");
    assert ItemText(it) == key + "=" + value;
    var one: seq<Item> := [it];
    assert one[1..] == [];
  }

  lemma OneValue(key: string, value: string)
    requires Assignment(key, value).Settable()
    ensures FirstValue([Assignment(key, value)], key) == value
  {
    var one: seq<Assignment> := [Assignment(key, value)];
    assert one[1..] == [];
  }
}
