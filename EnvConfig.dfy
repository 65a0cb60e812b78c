/**
 * The configuration step of the backend check script (scripts/verify-backend.js): reading
 * the Supabase URL and anonymous key out of the text of a `.env` file, refusing to go on
 * when either is missing, and the shortened key it shows. Reading the file, the client,
 * the sign-in and the query are left to the outside world.
 */
module EnvConfig {
  import opened Wrappers
  import opened Strings

  const UrlName: string := "VITE_SUPABASE_URL"
  const KeyName: string := "VITE_SUPABASE_ANON_KEY"
  const MissingMessage: string := "Missing VITE_SUPABASE_URL or VITE_SUPABASE_ANON_KEY in .env"

  /** `const [key, value] = line.split('=')`: the text before the first '='. */
  function RawKey(line: string): string
  {
    Split(line, '=')[0]
  }

  lemma OnePartWithoutSeparator(line: string)
    ensures '=' !in line ==> RawValue(line) == ""
  {
    if '=' !in line {
      SplitNoSeparator(line, '=');
    }
  }

  /** The text between the first and the second '=', empty (falsy) when there is no '='. */
  function RawValue(line: string): string
  {
    var parts := Split(line, '=');
    if |parts| > 1 then parts[1] else ""
  }

  /** What a line sets `name` to: both raw parts present, the trimmed key is `name`; the value trimmed. */
  function Setting(line: string, name: string): (r: Option<string>)
    ensures '=' !in line ==> r.None?
    ensures r.Some? ==> Trim(RawKey(line)) == name && Trim(r.value) == r.value
  {
    OnePartWithoutSeparator(line);
    TrimIdempotent(RawValue(line));
    if RawKey(line) != "" && RawValue(line) != "" && Trim(RawKey(line)) == name then Some(Trim(RawValue(line)))
    else None
  }

  /** What each line sets `name` to. */
  function SettingsOf(lines: seq<string>, name: string): (r: seq<Option<string>>)
    ensures |r| == |lines| && forall i :: 0 <= i < |lines| ==> r[i] == Setting(lines[i], name)
  {
    seq(|lines|, i requires 0 <= i < |lines| => Setting(lines[i], name))
  }

  /** The last value present, if any. */
  function LastSome(xs: seq<Option<string>>): Option<string>
  {
    if xs == [] then None
    else if xs[|xs| - 1].Some? then xs[|xs| - 1]
    else LastSome(xs[..|xs| - 1])
  }

  /** What the lines leave `name` set to: the last line that sets it wins. */
  function LastSetting(lines: seq<string>, name: string): Option<string>
  {
    LastSome(SettingsOf(lines, name))
  }

  /** The `forEach` over the lines of the file. */
  method LoadEnv(content: string) returns (url: Option<string>, anonKey: Option<string>)
    ensures url == LastSetting(Split(content, '\n'), UrlName)
    ensures anonKey == LastSetting(Split(content, '\n'), KeyName)
  {
    var lines := Split(content, '\n');
    ghost var urls, keys := SettingsOf(lines, UrlName), SettingsOf(lines, KeyName);
    url, anonKey := None, None;
    var i := 0;
    while i < |lines|
      invariant 0 <= i <= |lines|
      invariant url == LastSome(urls[..i])
      invariant anonKey == LastSome(keys[..i])
    {
      var line := lines[i];
      LastSomeStep(urls, i);
      LastSomeStep(keys, i);
      var key, value := RawKey(line), RawValue(line);
      if key != "" && value != "" {
        if Trim(key) == UrlName {
          url := Some(Trim(value));
        }
        if Trim(key) == KeyName {
          anonKey := Some(Trim(value));
        }
      }
      i := i + 1;
    }
    assert urls[..i] == urls && keys[..i] == keys;
  }

  lemma LastSomeStep(xs: seq<Option<string>>, i: nat)
    requires i < |xs|
    ensures LastSome(xs[..i + 1]) == if xs[i].Some? then xs[i] else LastSome(xs[..i])
  {
    assert xs[..i + 1][..i] == xs[..i];
  }

  /** The check before connecting: both values present and not empty, else the error message. */
  function CheckConfig(url: Option<string>, anonKey: Option<string>): (r: Result<(string, string)>)
    ensures r.Ok? <==> url.Some? && url.value != "" && anonKey.Some? && anonKey.value != ""
    ensures r.Ok? ==> r.value == (url.value, anonKey.value)
    ensures r.Err? ==> r.message == MissingMessage
  {
    if url.None? || url.value == "" || anonKey.None? || anonKey.value == "" then Err(MissingMessage)
    else Ok((url.value, anonKey.value))
  }

  /** `substring(0, 10) + '...'`: the key as shown on the console. */
  function KeyPreview(anonKey: string): (shown: string)
    ensures |shown| == (if |anonKey| < 10 then |anonKey| else 10) + 3
    ensures shown[..|shown| - 3] == anonKey[..|shown| - 3] && shown[|shown| - 3..] == "..."
  {
    Take(anonKey, 10) + "..."
  }

  // ---------------------------------------------------------------------------
  // Properties
  // ---------------------------------------------------------------------------

  /** Splitting at a first separator: the part before it, then the parts of the rest. */
  lemma {:induction false} SplitAtFirst(a: string, b: string, sep: char)
    requires sep !in a
    ensures Split(a + [sep] + b, sep) == [a] + Split(b, sep)
  {
    if a == [] {
      assert a + [sep] + b == [sep] + b;
      assert ([sep] + b)[1..] == b;
    } else {
      var s := a + [sep] + b;
      assert s[1..] == a[1..] + [sep] + b;
      SplitAtFirst(a[1..], b, sep);
      assert [a[0]] + a[1..] == a;
    }
  }

  /** Only the first two fields count: `key=value=more` reads as `key` and `value`. */
  lemma FirstTwoFields(key: string, value: string, more: string)
    requires '=' !in key && '=' !in value
    ensures RawKey(key + "=" + value + "=" + more) == key
    ensures RawValue(key + "=" + value + "=" + more) == value
    ensures RawKey(key + "=" + value) == key && RawValue(key + "=" + value) == value
  {
    SplitAtFirst(key, value + "=" + more, '=');
    assert key + "=" + value + "=" + more == key + ['='] + (value + "=" + more);
    SplitAtFirst(value, more, '=');
    assert value + "=" + more == value + ['='] + more;
    SplitAtFirst(key, value, '=');
    assert key + "=" + value == key + ['='] + value;
    SplitNoSeparator(value, '=');
  }

  /** A line without '=', or with nothing after it, sets nothing. */
  lemma NoValueNoSetting(line: string, name: string)
    requires '=' !in line || (line != [] && line[|line| - 1] == '=' && '=' !in line[..|line| - 1])
    ensures Setting(line, name) == None
  {
    if '=' !in line {
      SplitNoSeparator(line, '=');
    } else {
      var key := line[..|line| - 1];
      assert line == key + ['='] + [];
      SplitAtFirst(key, [], '=');
    }
  }

  /** There is no value left exactly when no entry holds one. */
  lemma {:induction false} NoneLeft(xs: seq<Option<string>>)
    ensures LastSome(xs).None? <==> forall i :: 0 <= i < |xs| ==> xs[i].None?
  {
    if xs != [] {
      var init := xs[..|xs| - 1];
      NoneLeft(init);
      assert forall i :: 0 <= i < |init| ==> init[i] == xs[i];
    }
  }

  /**
   * The value left is the value of the last line that sets one, and there is none exactly when
   * no line sets one.
   */
  lemma {:induction false} LastOneWins(xs: seq<Option<string>>)
    ensures LastSome(xs).None? <==> forall i :: 0 <= i < |xs| ==> xs[i].None?
    ensures LastSome(xs).Some? ==>
              exists i :: 0 <= i < |xs| && xs[i] == LastSome(xs) && forall j :: i < j < |xs| ==> xs[j].None?
  {
    NoneLeft(xs);
    if xs != [] {
      var last := |xs| - 1;
      var init := xs[..last];
      if xs[last].Some? {
        assert xs[last] == LastSome(xs);
      } else if LastSome(init).Some? {
        LastOneWins(init);
        var i :| 0 <= i < |init| && init[i] == LastSome(init) && forall j :: i < j < |init| ==> init[j].None?;
        assert xs[i] == LastSome(xs);
        assert forall j :: i < j < |xs| ==> xs[j].None? by {
          assert forall j :: i < j < last ==> xs[j] == init[j];
        }
      }
    }
  }

  /** For the lines of the file: `name` is left with the trimmed value of the last line that sets it. */
  lemma LastLineWins(lines: seq<string>, name: string)
    ensures LastSetting(lines, name).None? <==> forall i :: 0 <= i < |lines| ==> Setting(lines[i], name).None?
    ensures LastSetting(lines, name).Some? ==>
              exists i :: 0 <= i < |lines| && Setting(lines[i], name) == LastSetting(lines, name)
                          && forall j :: i < j < |lines| ==> Setting(lines[j], name).None?
  {
    var xs := SettingsOf(lines, name);
    assert LastSetting(lines, name) == LastSome(xs);
    LastOneWins(xs);
    if LastSome(xs).Some? {
      var i :| 0 <= i < |xs| && xs[i] == LastSome(xs) && forall j :: i < j < |xs| ==> xs[j].None?;
      assert Setting(lines[i], name) == xs[i];
    }
  }

  /** A value of only white space is read, trimmed to nothing, and then refused like a missing one. */
  lemma BlankValueRefused(value: string, anonKey: Option<string>)
    requires value != [] && AllSpace(value) && '=' !in value
    ensures Setting(UrlName + "=" + value, UrlName) == Some("")
    ensures CheckConfig(Setting(UrlName + "=" + value, UrlName), anonKey) == Err(MissingMessage)
  {
    var line := UrlName + "=" + value;
    assert RawKey(line) == UrlName && RawValue(line) == value by {
      FirstTwoFields(UrlName, value, "");
    }
    assert Trim(value) == "" by {
      TrimEmpty(value);
    }
    assert Trim(UrlName) == UrlName by {
      TrimPlain(UrlName);
    }
  }

  /** A text with no white space at either end is its own trim, and loses only a trailing carriage return. */
  lemma TrimPlain(t: string)
    requires t != [] && !IsSpace(t[0]) && !IsSpace(t[|t| - 1])
    ensures Trim(t + "\r") == t && Trim(t) == t
  {
    assert (t + "\r")[0] == t[0];
    assert (t + "\r")[..|t|] == t;
  }

  /** A line ended by a carriage return (a file saved with CRLF line ends) sets the value without it. */
  lemma CarriageReturnTrimmed(name: string, value: string)
    requires name != [] && !IsSpace(name[0]) && !IsSpace(name[|name| - 1]) && '=' !in name
    requires value != [] && !IsSpace(value[0]) && !IsSpace(value[|value| - 1]) && '=' !in value
    ensures Setting(name + "=" + value + "\r", name) == Some(value)
  {
    var line := name + "=" + value + "\r";
    assert RawKey(line) == name && RawValue(line) == value + "\r" by {
      FirstTwoFields(name, value + "\r", "");
      assert line == name + "=" + (value + "\r");
    }
    assert Trim(value + "\r") == value by {
      TrimPlain(value);
    }
    assert Trim(name) == name by {
      TrimPlain(name);
    }
  }
}
