/**
 * The LLM API key configuration endpoints: reading the key from the settings or the
 * environment, and persisting a new key into the `.env` file and the running process.
 */
module EnvConfig {
  import opened Wrappers
  import Text

  /** The line `_write_env_value` writes for a key. */
  function Entry(key: string, value: string): string {
    key + "=" + value
  }

  /** A line that assigns `key` (it starts with `key=`). */
  predicate Assigns(line: string, key: string) {
    key + "=" <= line
  }

  /** Every line assigning `key` replaced by the new entry, every other line kept. */
  function Rewritten(lines: seq<string>, key: string, value: string): (r: seq<string>)
    ensures |r| == |lines|
  {
    seq(|lines|, i requires 0 <= i < |lines| => if Assigns(lines[i], key) then Entry(key, value) else lines[i])
  }

  /** The lines of the file after the write: rewritten, plus the entry at the end when no line assigned the key. */
  function Updated(lines: seq<string>, key: string, value: string): seq<string> {
    if exists i | 0 <= i < |lines| :: Assigns(lines[i], key) then Rewritten(lines, key, value)
    else Rewritten(lines, key, value) + [Entry(key, value)]
  }

  /** The lines read from the `.env` file, none when it does not exist. */
  function LinesOf(file: Option<string>): seq<string> {
    if file.Some? then Text.SplitLines(file.value) else []
  }

  /** The text `_write_env_value` writes to the `.env` file. */
  function EnvText(file: Option<string>, key: string, value: string): string {
    Text.Join(Updated(LinesOf(file), key, value), "\n") + "\n"
  }

  /** The value the first line assigning `key` gives it. */
  function LookupLines(lines: seq<string>, key: string): (r: Option<string>)
    ensures r.Some? <==> exists i | 0 <= i < |lines| :: Assigns(lines[i], key)
  {
    if lines == [] then None
    else if Assigns(lines[0], key) then Some(lines[0][|key| + 1..])
    else
      var r := LookupLines(lines[1..], key);
      assert forall i | 1 <= i < |lines| :: lines[i] == lines[1..][i - 1];
      r
  }

  /** The value a `.env` file gives `key`. */
  function Lookup(file: Option<string>, key: string): Option<string> {
    LookupLines(LinesOf(file), key)
  }

  /**
   * The loop of `_write_env_value`: each line assigning `key` is replaced by `key=value`,
   * `updated` records whether there was one.
   */
  method RewriteLines(lines: seq<string>, key: string, value: string) returns (newLines: seq<string>, updated: bool)
    ensures newLines == Rewritten(lines, key, value)
    ensures updated <==> exists i | 0 <= i < |lines| :: Assigns(lines[i], key)
  {
    updated := false;
    newLines := [];
    var n := 0;
    while n < |lines|
      invariant 0 <= n <= |lines|
      invariant newLines == Rewritten(lines[..n], key, value)
      invariant updated <==> exists i | 0 <= i < n :: Assigns(lines[i], key)
    {
      if Assigns(lines[n], key) {
        newLines := newLines + [Entry(key, value)];
        updated := true;
      } else {
        newLines := newLines + [lines[n]];
      }
      n := n + 1;
    }
    assert lines[..n] == lines;
  }

  /** `settings.LLM_API_KEY or os.getenv("LLM_API_KEY") or os.getenv("OPENAI_API_KEY") or ""`. */
  function CurrentKey(settingsKey: string, environ: map<string, string>): (r: string)
    ensures r == "" <==> settingsKey == "" && (("LLM_API_KEY" in environ) ==> environ["LLM_API_KEY"] == "")
                                          && (("OPENAI_API_KEY" in environ) ==> environ["OPENAI_API_KEY"] == "")
    ensures settingsKey != "" ==> r == settingsKey
    ensures settingsKey == "" && "LLM_API_KEY" in environ && environ["LLM_API_KEY"] != "" ==> r == environ["LLM_API_KEY"]
    ensures (settingsKey == "" && ("LLM_API_KEY" !in environ || environ["LLM_API_KEY"] == "")
             && "OPENAI_API_KEY" in environ && environ["OPENAI_API_KEY"] != "") ==> r == environ["OPENAI_API_KEY"]
  {
    if settingsKey != "" then settingsKey
    else if "LLM_API_KEY" in environ && environ["LLM_API_KEY"] != "" then environ["LLM_API_KEY"]
    else if "OPENAI_API_KEY" in environ && environ["OPENAI_API_KEY"] != "" then environ["OPENAI_API_KEY"]
    else ""
  }

  /** The process state the configuration endpoints read and write. */
  class Deployment {
    /** Contents of the `.env` file; `None` while it does not exist. */
    var envFile: Option<string>
    /** `settings.LLM_API_KEY` (an unset setting is the empty string). */
    var settingsKey: string
    /** `os.environ`. */
    var environ: map<string, string>

    constructor (envFile: Option<string>, settingsKey: string, environ: map<string, string>)
      ensures this.envFile == envFile && this.settingsKey == settingsKey && this.environ == environ
    {
      this.envFile := envFile;
      this.settingsKey := settingsKey;
      this.environ := environ;
    }

    /** `_write_env_value`: rewrites the `.env` file so that `key` is assigned `value`. */
    method WriteEnvValue(key: string, value: string)
      modifies this
      ensures envFile == Some(EnvText(old(envFile), key, value))
      ensures settingsKey == old(settingsKey) && environ == old(environ)
    {
      var lines: seq<string> := [];
      if envFile.Some? {
        lines := Text.SplitLines(envFile.value);
      }
      var newLines, updated := RewriteLines(lines, key, value);
      if !updated {
        newLines := newLines + [Entry(key, value)];
      }
      envFile := Some(Text.Join(newLines, "\n") + "\n");
    }

    /** GET /config/llm-api-key: the reported key always comes from the setting or one of the two variables. */
    function GetLlmApiKey(): (r: string)
      reads this
      ensures r == "" || r == settingsKey || ("LLM_API_KEY" in environ && r == environ["LLM_API_KEY"])
              || ("OPENAI_API_KEY" in environ && r == environ["OPENAI_API_KEY"])
    {
      CurrentKey(settingsKey, environ)
    }

    /** PUT /config/llm-api-key: persists the key under both names and returns it. */
    method UpdateLlmApiKey(apiKey: Option<string>) returns (clean: string)
      modifies this
      ensures clean == apiKey.GetOr("")
      ensures envFile == Some(EnvText(Some(EnvText(old(envFile), "LLM_API_KEY", clean)), "OPENAI_API_KEY", clean))
      ensures settingsKey == clean
      ensures environ == old(environ)["LLM_API_KEY" := clean]["OPENAI_API_KEY" := clean]
      ensures GetLlmApiKey() == clean
    {
      clean := apiKey.GetOr("");
      WriteEnvValue("LLM_API_KEY", clean);
      WriteEnvValue("OPENAI_API_KEY", clean);
      settingsKey := clean;
      environ := environ["LLM_API_KEY" := clean]["OPENAI_API_KEY" := clean];
    }
  }

  // ----- properties of the written file -----

  predicate NoNewline(s: string) {
    '\n' !in s
  }

  /** Reading back the written file yields exactly the updated lines. */
  lemma {:induction false} ReadBackLines(file: Option<string>, key: string, value: string)
    requires NoNewline(key) && NoNewline(value)
    ensures LinesOf(Some(EnvText(file, key, value))) == Updated(LinesOf(file), key, value)
  {
    var lines := LinesOf(file);
    var u := Updated(lines, key, value);
    UpdatedAssigns(lines, key, value);
    Text.JoinThenNewline(u);
    assert forall i | 0 <= i < |u| :: '\n' !in u[i] by {
      forall i | 0 <= i < |u| ensures '\n' !in u[i] {
        if i < |lines| && !Assigns(lines[i], key) {
          assert u[i] == lines[i];
        } else {
          assert u[i] == Entry(key, value);
        }
      }
    }
    Text.SplitTerminated(u);
  }

  /** After the write the key is assigned exactly once per former assignment, at least once, and always to the new value. */
  lemma {:induction false} WriteThenLookup(file: Option<string>, key: string, value: string)
    requires NoNewline(key) && NoNewline(value)
    ensures Lookup(Some(EnvText(file, key, value)), key) == Some(value)
  {
    ReadBackLines(file, key, value);
    var lines := LinesOf(file);
    var u := Updated(lines, key, value);
    UpdatedAssigns(lines, key, value);
    assert forall i | 0 <= i < |u| :: Assigns(u[i], key) ==> u[i] == Entry(key, value);
    FirstAssignment(u, key, value);
  }

  lemma {:induction false} FirstAssignment(lines: seq<string>, key: string, value: string)
    requires exists i | 0 <= i < |lines| :: Assigns(lines[i], key)
    requires forall i | 0 <= i < |lines| :: Assigns(lines[i], key) ==> lines[i] == Entry(key, value)
    ensures LookupLines(lines, key) == Some(value)
  {
    if Assigns(lines[0], key) {
      assert lines[0][|key| + 1..] == value;
    } else {
      assert forall i | 1 <= i < |lines| :: lines[i] == lines[1..][i - 1];
      FirstAssignment(lines[1..], key, value);
    }
  }

  /** After the write some line assigns the key. */
  lemma UpdatedAssigns(lines: seq<string>, key: string, value: string)
    ensures var u := Updated(lines, key, value); exists i | 0 <= i < |u| :: Assigns(u[i], key)
  {
    var u := Updated(lines, key, value);
    if exists i | 0 <= i < |lines| :: Assigns(lines[i], key) {
      var i :| 0 <= i < |lines| && Assigns(lines[i], key);
      assert Assigns(u[i], key);
    } else {
      assert Assigns(u[|lines|], key);
    }
  }

  /** Lines that do not assign the key keep their place; the entry is appended only when the key was absent. */
  lemma OtherLinesKept(file: Option<string>, key: string, value: string)
    ensures var lines := LinesOf(file);
      var u := Updated(lines, key, value);
      (forall i | 0 <= i < |lines| && !Assigns(lines[i], key) :: u[i] == lines[i])
      && (forall i | 0 <= i < |lines| && Assigns(lines[i], key) :: u[i] == Entry(key, value))
      && (|u| == |lines| <==> exists i | 0 <= i < |lines| :: Assigns(lines[i], key))
      && (|u| == |lines| + 1 <==> !exists i | 0 <= i < |lines| :: Assigns(lines[i], key))
      && (|u| == |lines| + 1 ==> u[|lines|] == Entry(key, value))
  {
  }

  /** Without an existing `.env` file the written file holds just the one entry. */
  lemma NewFile(key: string, value: string)
    ensures EnvText(None, key, value) == Entry(key, value) + "\n"
  {
  }

  /**
   * Writing the same key and value twice leaves the file as the first write left it. This needs a
   * key and value without a newline: `splitlines` cuts such a value apart, so the second write
   * finds a different set of lines and the source is not idempotent for it.
   */
  lemma {:induction false} WriteIdempotent(file: Option<string>, key: string, value: string)
    requires NoNewline(key) && NoNewline(value)
    ensures EnvText(Some(EnvText(file, key, value)), key, value) == EnvText(file, key, value)
  {
    ReadBackLines(file, key, value);
    var u := Updated(LinesOf(file), key, value);
    UpdatedAssigns(LinesOf(file), key, value);
    assert Updated(u, key, value) == u;
  }

  /** Writing one key leaves the value any other key reads unchanged, when neither key name extends the other. */
  lemma {:induction false} WritePreservesOtherKeys(file: Option<string>, key: string, value: string, other: string)
    requires NoNewline(key) && NoNewline(value)
    requires !(key + "=" <= other + "=") && !(other + "=" <= key + "=")
    ensures Lookup(Some(EnvText(file, key, value)), other) == Lookup(file, other)
  {
    ReadBackLines(file, key, value);
    var lines := LinesOf(file);
    var u := Updated(lines, key, value);
    assert !Assigns(Entry(key, value), other);
    assert forall i | 0 <= i < |lines| && Assigns(lines[i], other) :: !Assigns(lines[i], key);
    SameLookup(lines, u, key, value, other);
  }

  lemma {:induction false} SameLookup(lines: seq<string>, u: seq<string>, key: string, value: string, other: string)
    requires |lines| <= |u|
    requires forall i | 0 <= i < |lines| :: u[i] == if Assigns(lines[i], key) then Entry(key, value) else lines[i]
    requires forall i | |lines| <= i < |u| :: u[i] == Entry(key, value)
    requires !Assigns(Entry(key, value), other)
    requires forall i | 0 <= i < |lines| && Assigns(lines[i], other) :: !Assigns(lines[i], key)
    ensures LookupLines(u, other) == LookupLines(lines, other)
  {
    if lines == [] {
      assert !exists i | 0 <= i < |u| :: Assigns(u[i], other);
    } else {
      assert forall i | 1 <= i < |u| :: u[i] == u[1..][i - 1];
      assert forall i | 1 <= i < |lines| :: lines[i] == lines[1..][i - 1];
      SameLookup(lines[1..], u[1..], key, value, other);
    }
  }
}
