/**
 * The credentials form and the .env file. A JavaScript object is modelled by its
 * entries in insertion order: assigning an existing key keeps its position,
 * assigning a new key appends it. What dotenv.parse returns for the file is an
 * input; the file's text itself is not parsed here.
 */
module Env {
  import opened Wrappers
  import opened Text

  /** An object's entries, in insertion order. */
  type Pairs = seq<(string, string)>

  /** Object.keys: one key per entry, and a string is a key iff some entry carries it. */
  function KeysOf(p: Pairs): (r: seq<string>)
    ensures |r| == |p|
    ensures forall k :: k in r <==> exists i :: 0 <= i < |p| && p[i].0 == k
  {
    var r := seq(|p|, i requires 0 <= i < |p| => p[i].0);
    assert forall i :: 0 <= i < |p| ==> r[i] == p[i].0;
    r
  }

  /** What an object built by assignment satisfies: no key twice. */
  predicate UniqueKeys(p: Pairs) {
    forall i, j :: 0 <= i < j < |p| ==> p[i].0 != p[j].0
  }

  /** The position of key `k` at or after `from`, or -1. */
  function KeyIndexFrom(p: Pairs, k: string, from: nat): (i: int)
    ensures i == -1 || (from <= i < |p| && p[i].0 == k)
    ensures forall j :: from <= j < |p| && (i == -1 || j < i) ==> p[j].0 != k
    decreases |p| - from
  {
    if from >= |p| then -1 else if p[from].0 == k then from else KeyIndexFrom(p, k, from + 1)
  }

  /** The position of key `k`, or -1. */
  function KeyIndex(p: Pairs, k: string): (i: int)
    ensures i == -1 || (0 <= i < |p| && p[i].0 == k)
    ensures forall j :: 0 <= j < |p| && (i == -1 || j < i) ==> p[j].0 != k
  {
    KeyIndexFrom(p, k, 0)
  }

  /** obj[k], None when the key is absent. */
  function Lookup(p: Pairs, k: string): (r: Option<string>)
    ensures r.Some? <==> k in KeysOf(p)
    ensures r.Some? ==> (k, r.value) in p
  {
    var i := KeyIndex(p, k);
    if i >= 0 then Some(p[i].1) else None
  }

  /** Entries whose keys agree up to `n` agree on where a key first occurs before `n`, or that it does not occur. */
  lemma KeyIndexSame(p: Pairs, q: Pairs, k: string, n: nat)
    requires n <= |p| && n <= |q|
    requires forall j :: 0 <= j < n ==> p[j].0 == q[j].0
    requires KeyIndex(p, k) < n
    requires KeyIndex(p, k) == -1 ==> forall j :: n <= j < |q| ==> q[j].0 != k
    ensures KeyIndex(q, k) == KeyIndex(p, k)
  {
  }

  /** obj[k] = v: an existing key keeps its position, a new one is appended. */
  function Assign(p: Pairs, k: string, v: string): (r: Pairs)
    ensures k in KeysOf(p) ==> |r| == |p| && KeysOf(r) == KeysOf(p)
    ensures k !in KeysOf(p) ==> r == p + [(k, v)]
  {
    var i := KeyIndex(p, k);
    if i >= 0 then
      assert KeysOf(p[i := (k, v)]) == KeysOf(p);
      p[i := (k, v)]
    else
      assert k !in KeysOf(p);
      p + [(k, v)]
  }

  /** The assigned key reads the new value, every other key what it read before, and no key is doubled. */
  lemma AssignSpec(p: Pairs, k: string, v: string, k': string)
    ensures Lookup(Assign(p, k, v), k) == Some(v)
    ensures k' != k ==> Lookup(Assign(p, k, v), k') == Lookup(p, k')
    ensures UniqueKeys(p) ==> UniqueKeys(Assign(p, k, v))
  {
    var i := KeyIndex(p, k);
    var r := Assign(p, k, v);
    if i >= 0 {
      assert forall j :: 0 <= j < |p| ==> r[j].0 == p[j].0;
      KeyIndexSame(p, r, k, |p|);
      KeyIndexSame(p, r, k', |p|);
    } else {
      assert forall j :: 0 <= j < |p| ==> r[j] == p[j];
      assert r[|p|] == (k, v);
      assert KeyIndex(r, k) == |p|;
      if k' != k {
        KeyIndexSame(p, r, k', |p|);
      }
    }
  }

  /** EnvManager.keyMapping: form field names to .env keys. */
  const KeyMapping: Pairs := [
    ("spreadsheet_id", "SPREADSHEET_ID"),
    ("openai_api_key", "OpenAI_API_KEY"),
    ("google_api_key", "Google_API_KEY"),
    ("google_service_account_json", "GOOGLE_SERVICE_ACCOUNT_JSON")
  ]

  const FormKeys: seq<string> := ["spreadsheet_id", "openai_api_key", "google_api_key", "google_service_account_json"]

  lemma KeyMappingKeys()
    ensures KeysOf(KeyMapping) == FormKeys
    ensures UniqueKeys(KeyMapping)
  {
    assert KeysOf(KeyMapping)[0] == FormKeys[0];
  }

  /** Reading the .env file: dotenv.parse of its text, a missing file, or another read error. */
  datatype EnvFile =
    | Parsed(entries: Pairs)
    | NotFound
    | ReadError(message: string)

  /** `parsed[envKey] || ''` for each pair of the mapping, under its form key. */
  function LoadedValues(parsed: Pairs, mapping: Pairs): (r: Pairs)
    ensures KeysOf(r) == KeysOf(mapping)
    ensures forall i :: 0 <= i < |r| ==> r[i].1 == Lookup(parsed, mapping[i].1).GetOr("")
  {
    if mapping == [] then []
    else
      var (formKey, envKey) := mapping[|mapping| - 1];
      var prev := LoadedValues(parsed, mapping[..|mapping| - 1]);
      assert KeysOf(mapping) == KeysOf(mapping[..|mapping| - 1]) + [formKey];
      prev + [(formKey, Lookup(parsed, envKey).GetOr(""))]
  }

  /** The ENOENT default: every given key set to ''. */
  function Blank(keys: seq<string>): (r: Pairs)
    ensures KeysOf(r) == keys
    ensures forall i :: 0 <= i < |r| ==> r[i].1 == ""
  {
    if keys == [] then [] else Blank(keys[..|keys| - 1]) + [(keys[|keys| - 1], "")]
  }

  /** loadEnv's result for each outcome of reading the file. */
  function LoadResult(file: EnvFile): Result<Pairs> {
    match file
    case Parsed(p) => Success(LoadedValues(p, KeyMapping))
    case NotFound => Success(Blank(FormKeys))
    case ReadError(e) => Failure(e)
  }

  /**
   * loadEnv yields exactly the four form keys, in the mapping's order, each set
   * to the parsed value of its .env key or ''; a missing file behaves like an
   * empty one; any other read error is rethrown.
   */
  lemma LoadResultSpec(file: EnvFile)
    ensures file.ReadError? ==> LoadResult(file) == Failure(file.message)
    ensures file.NotFound? ==> LoadResult(file) == LoadResult(Parsed([]))
    ensures LoadResult(file).Success? ==>
      && KeysOf(LoadResult(file).value) == FormKeys
      && forall i :: 0 <= i < 4 ==>
           LoadResult(file).value[i].1 == if file.Parsed? then Lookup(file.entries, KeyMapping[i].1).GetOr("") else ""
  {
    KeyMappingKeys();
    var empty := LoadedValues([], KeyMapping);
    assert KeysOf(empty) == KeysOf(Blank(FormKeys));
    assert forall i :: 0 <= i < |empty| ==> KeysOf(empty)[i] == empty[i].0 && KeysOf(Blank(FormKeys))[i] == Blank(FormKeys)[i].0;
    assert forall i :: 0 <= i < |empty| ==> empty[i] == Blank(FormKeys)[i];
    assert empty == Blank(FormKeys);
  }

  /** The forEach over a mapping with distinct form keys: each form key is assigned in turn. */
  method LoadValues(parsed: Pairs, mapping: Pairs) returns (result: Pairs)
    requires UniqueKeys(mapping)
    ensures result == LoadedValues(parsed, mapping)
  {
    result := [];
    for i := 0 to |mapping|
      invariant result == LoadedValues(parsed, mapping[..i])
    {
      var (formKey, envKey) := mapping[i];
      assert mapping[..i + 1][..i] == mapping[..i];
      assert formKey !in KeysOf(result) by {
        assert KeysOf(result) == KeysOf(mapping[..i]);
        assert forall j :: 0 <= j < i ==> mapping[j].0 != formKey;
      }
      result := Assign(result, formKey, Lookup(parsed, envKey).GetOr(""));
    }
    assert mapping[..|mapping|] == mapping;
  }

  /** loadEnv: the mapped values of a parsed file, blanks for a missing one, any other error rethrown. */
  method LoadEnv(file: EnvFile) returns (r: Result<Pairs>)
    ensures r == LoadResult(file)
  {
    match file
    case ReadError(e) =>
      return Failure(e);
    case NotFound =>
      return Success(Blank(FormKeys));
    case Parsed(parsed) =>
      KeyMappingKeys();
      var values := LoadValues(parsed, KeyMapping);
      return Success(values);
  }

  /** `this.keyMapping[formKey]` for a form key: its .env key, or None when unmapped. */
  function EnvKeyOf(formKey: string): (r: Option<string>)
    ensures r.Some? <==> formKey in FormKeys
  {
    KeyMappingKeys();
    Lookup(KeyMapping, formKey)
  }

  /** The merge's forEach: a mapped form key with a non-empty value overwrites its .env key. */
  function Merge(existing: Pairs, variables: Pairs): (r: Pairs)
    ensures |r| >= |existing| && KeysOf(r)[..|existing|] == KeysOf(existing)
  {
    if variables == [] then existing
    else
      var prev := Merge(existing, variables[..|variables| - 1]);
      var (formKey, value) := variables[|variables| - 1];
      var envKey := EnvKeyOf(formKey);
      if envKey.Some? && envKey.value != "" && value != "" then Assign(prev, envKey.value, value) else prev
  }

  /** The form pair `v` takes effect in the merge. */
  predicate Effective(v: (string, string)) {
    EnvKeyOf(v.0).Some? && EnvKeyOf(v.0).value != "" && v.1 != ""
  }

  /** Form keys outside the mapping and empty values leave the existing entries as they were. */
  lemma {:induction false} MergeIgnores(existing: Pairs, variables: Pairs)
    requires forall i :: 0 <= i < |variables| ==> !Effective(variables[i])
    ensures Merge(existing, variables) == existing
  {
    if variables != [] {
      MergeIgnores(existing, variables[..|variables| - 1]);
    }
  }

  /**
   * Existing keys keep their place, the merge stays free of duplicates, and a
   * key no effective form value targets keeps its existing value.
   */
  lemma {:induction false} MergeKeeps(existing: Pairs, variables: Pairs, k: string)
    requires UniqueKeys(existing)
    requires forall i :: 0 <= i < |variables| && Effective(variables[i]) ==> EnvKeyOf(variables[i].0).value != k
    ensures UniqueKeys(Merge(existing, variables))
    ensures Lookup(Merge(existing, variables), k) == Lookup(existing, k)
  {
    if variables != [] {
      var init := variables[..|variables| - 1];
      MergeKeeps(existing, init, k);
      var prev := Merge(existing, init);
      var (formKey, value) := variables[|variables| - 1];
      var envKey := EnvKeyOf(formKey);
      if envKey.Some? && envKey.value != "" && value != "" {
        AssignSpec(prev, envKey.value, value, k);
      }
    }
  }

  /** The last effective form value for a key is the one written. */
  lemma MergeLastWins(existing: Pairs, variables: Pairs, v: (string, string))
    requires Effective(v)
    ensures Lookup(Merge(existing, variables + [v]), EnvKeyOf(v.0).value) == Some(v.1)
  {
    assert (variables + [v])[..|variables|] == variables;
    AssignSpec(Merge(existing, variables), EnvKeyOf(v.0).value, v.1, "");
  }

  /** saveEnv's merge loop over the form's entries. */
  method MergeVariables(existing: Pairs, variables: Pairs) returns (merged: Pairs)
    ensures merged == Merge(existing, variables)
  {
    merged := existing;
    for i := 0 to |variables|
      invariant merged == Merge(existing, variables[..i])
    {
      var (formKey, value) := variables[i];
      assert variables[..i + 1][..i] == variables[..i];
      var envKey := EnvKeyOf(formKey);
      if envKey.Some? && envKey.value != "" && value != "" {
        merged := Assign(merged, envKey.value, value);
      }
    }
    assert variables[..|variables|] == variables;
  }

  /** The filter on empty values, rebuilt into an object by the reduce. */
  function Clean(p: Pairs): (r: Pairs)
    ensures forall i :: 0 <= i < |r| ==> r[i].1 != ""
    ensures forall e :: e in r <==> e in p && e.1 != ""
    ensures |r| <= |p|
  {
    if p == [] then []
    else if p[|p| - 1].1 != "" then Clean(p[..|p| - 1]) + [p[|p| - 1]]
    else Clean(p[..|p| - 1])
  }

  /** The kept entries keep their order: cleaning a concatenation cleans each part. */
  lemma {:induction false} CleanConcat(a: Pairs, b: Pairs)
    ensures Clean(a + b) == Clean(a) + Clean(b)
    decreases |b|
  {
    if b == [] {
      assert a + b == a;
    } else {
      assert (a + b)[..|a + b| - 1] == a + b[..|b| - 1];
      assert (a + b)[|a + b| - 1] == b[|b| - 1];
      CleanConcat(a, b[..|b| - 1]);
    }
  }

  /** In an object, an entry is what its key reads. */
  lemma LookupUnique(p: Pairs, k: string, v: string)
    requires UniqueKeys(p) && (k, v) in p
    ensures Lookup(p, k) == Some(v)
  {
    var j :| 0 <= j < |p| && p[j] == (k, v);
    assert KeyIndex(p, k) == j;
  }

  /** Cleaning keeps the keys distinct. */
  lemma {:induction false} CleanUnique(p: Pairs)
    requires UniqueKeys(p)
    ensures UniqueKeys(Clean(p))
  {
    if p != [] {
      var init := p[..|p| - 1];
      var last := p[|p| - 1];
      assert UniqueKeys(init);
      CleanUnique(init);
      if last.1 != "" {
        var c := Clean(init);
        forall j | 0 <= j < |c|
          ensures c[j].0 != last.0
        {
          assert c[j] in init;
        }
        assert Clean(p) == c + [last];
      }
    }
  }

  /** Cleaning keeps every non-empty value under its key and drops the key of an empty one. */
  lemma CleanLookup(p: Pairs, k: string)
    requires UniqueKeys(p)
    ensures UniqueKeys(Clean(p))
    ensures Lookup(Clean(p), k) == if Lookup(p, k).Some? && Lookup(p, k).value != "" then Lookup(p, k) else None
  {
    CleanUnique(p);
    var c := Clean(p);
    match Lookup(p, k)
    case Some(v) =>
      if v != "" {
        LookupUnique(c, k, v);
      } else if Lookup(c, k).Some? {
        LookupUnique(p, k, Lookup(c, k).value);
      }
    case None =>
  }

  lemma {:induction false} LookupAppend(p: Pairs, e: (string, string), k: string)
    requires e.0 !in KeysOf(p)
    ensures Lookup(p + [e], k) == if k == e.0 then Some(e.1) else Lookup(p, k)
    ensures UniqueKeys(p) ==> UniqueKeys(p + [e])
  {
    assert Assign(p, e.0, e.1) == p + [e];
    AssignSpec(p, e.0, e.1, k);
  }

  lemma LookupLast(p: Pairs, e: (string, string))
    requires e.0 !in KeysOf(p)
    ensures Lookup(p + [e], e.0) == Some(e.1)
  {
    LookupAppend(p, e, e.0);
  }

  lemma LookupOther(p: Pairs, e: (string, string), k: string)
    requires e.0 !in KeysOf(p) && k != e.0
    ensures Lookup(p + [e], k) == Lookup(p, k)
  {
    LookupAppend(p, e, k);
  }

  /** `${key}=${value}` for each entry. */
  function Lines(p: Pairs): seq<string> {
    seq(|p|, i requires 0 <= i < |p| => p[i].0 + "=" + p[i].1)
  }

  /** The written .env content: the lines joined by '\n'. */
  function Serialise(p: Pairs): string {
    Join(Lines(p), "\n")
  }

  /** Reading a line back: the key up to the first '=', the value after it. */
  function ReadLine(line: string): (string, string) {
    var key := Before(line, '=');
    (key, if |key| < |line| then line[|key| + 1..] else "")
  }

  /** Reading content back, one entry per line. */
  function ReadContent(content: string): Pairs {
    var lines := Split(content, '\n');
    seq(|lines|, i requires 0 <= i < |lines| => ReadLine(lines[i]))
  }

  /** An entry that survives the text form: no newline anywhere and no '=' in its key. */
  predicate Writable(e: (string, string)) {
    '\n' !in e.0 && '\n' !in e.1 && '=' !in e.0
  }

  lemma ReadLineOf(k: string, v: string)
    requires '=' !in k
    ensures ReadLine(k + "=" + v) == (k, v)
  {
    BeforeSeparator(k, '=', v);
    assert (k + "=" + v)[|k| + 1..] == v;
  }

  /** The content lists every entry as one `KEY=VALUE` line, in order: reading it back gives the entries. */
  lemma SerialiseRoundTrip(p: Pairs)
    requires |p| > 0
    requires forall i :: 0 <= i < |p| ==> Writable(p[i])
    ensures ReadContent(Serialise(p)) == p
  {
    var lines := Lines(p);
    forall i | 0 <= i < |lines|
      ensures '\n' !in lines[i]
    {
      assert lines[i] == p[i].0 + "=" + p[i].1;
    }
    SplitJoin(lines, '\n');
    forall i | 0 <= i < |p|
      ensures ReadLine(lines[i]) == p[i]
    {
      ReadLineOf(p[i].0, p[i].1);
    }
  }

  /** `process.env[key] = value` for each entry, in order. */
  function Overlay(env: map<string, string>, p: Pairs): (r: map<string, string>)
    ensures forall k :: k in env ==> k in r
  {
    if p == [] then env else Overlay(env, p[..|p| - 1])[p[|p| - 1].0 := p[|p| - 1].1]
  }

  /** After the copy, every written key holds its value and every other variable is untouched. */
  lemma {:induction false} OverlaySpec(env: map<string, string>, p: Pairs, k: string)
    requires UniqueKeys(p)
    ensures Lookup(p, k).Some? ==> k in Overlay(env, p) && Overlay(env, p)[k] == Lookup(p, k).value
    ensures Lookup(p, k).None? ==> (k in Overlay(env, p) <==> k in env) && (k in env ==> Overlay(env, p)[k] == env[k])
  {
    if p != [] {
      var init := p[..|p| - 1];
      var last := p[|p| - 1];
      assert UniqueKeys(init);
      OverlaySpec(env, init, k);
      LookupSnoc(p, k);
    }
  }

  /** With unique keys, the last entry decides its own key and the others are looked up before it. */
  lemma LookupSnoc(p: Pairs, k: string)
    requires p != [] && UniqueKeys(p)
    ensures Lookup(p, k) == if k == p[|p| - 1].0 then Some(p[|p| - 1].1) else Lookup(p[..|p| - 1], k)
  {
    var init := p[..|p| - 1];
    var last := p[|p| - 1];
    assert forall j :: 0 <= j < |init| ==> init[j].0 != last.0;
    assert p == init + [last];
    LookupAppend(init, last, k);
  }

  /** The entries saveEnv writes: the file's variables merged with the form, empty values dropped. */
  function Saved(existing: EnvFile, variables: Pairs): (r: Pairs)
    ensures forall i :: 0 <= i < |r| ==> r[i].1 != ""
  {
    Clean(Merge(if existing.Parsed? then existing.entries else [], variables))
  }

  /** The loop that copies the written entries into process.env. */
  method CopyToEnv(env: map<string, string>, p: Pairs) returns (r: map<string, string>)
    ensures r == Overlay(env, p)
  {
    r := env;
    for i := 0 to |p|
      invariant r == Overlay(env, p[..i])
    {
      assert p[..i + 1][..i] == p[..i];
      r := r[p[i].0 := p[i].1];
    }
    assert p[..|p|] == p;
  }

  /**
   * How `fs.writeFile` ends. It opens the file with flag 'w', which empties it,
   * and then writes: the whole content is written; the open fails and the file
   * is not touched; or the open succeeds and the write fails after `written`
   * characters, leaving the file emptied or partly written.
   */
  datatype WriteOutcome = Written | OpenFailed(error: string) | WriteFailed(error: string, written: nat)

  /**
   * The process environment and the .env file's content as last written; the
   * form-to-key mapping itself is the constant KeyMapping.
   */
  class EnvManager {
    var processEnv: map<string, string>
    var envFile: Option<string>

    constructor(env: map<string, string>)
      ensures processEnv == env && envFile.None?
    {
      processEnv := env;
      envFile := None;
    }

    /**
     * saveEnv: read and parse the file (a missing one counts as empty, another
     * read error is rethrown), merge the form, drop empty values, write the
     * `KEY=VALUE` lines (a write error is rethrown) and copy the entries into
     * process.env.
     */
    method SaveEnv(variables: Pairs, existing: EnvFile, write: WriteOutcome) returns (r: Result<bool>)
      modifies this
      ensures existing.ReadError? ==>
        r == Failure(existing.message) && processEnv == old(processEnv) && envFile == old(envFile)
      ensures !existing.ReadError? && write.OpenFailed? ==>
        r == Failure(write.error) && processEnv == old(processEnv) && envFile == old(envFile)
      ensures !existing.ReadError? && write.WriteFailed? ==>
        && r == Failure(write.error)
        && processEnv == old(processEnv)
        && envFile.Some?
        && envFile.value <= Serialise(Saved(existing, variables))
        && |envFile.value| == (if write.written < |Serialise(Saved(existing, variables))| then write.written
                               else |Serialise(Saved(existing, variables))|)
      ensures !existing.ReadError? && write.Written? ==>
        && r == Success(true)
        && envFile == Some(Serialise(Saved(existing, variables)))
        && processEnv == Overlay(old(processEnv), Saved(existing, variables))
    {
      if existing.ReadError? {
        return Failure(existing.message);
      }
      var existingVars: Pairs := if existing.Parsed? then existing.entries else [];
      var merged := MergeVariables(existingVars, variables);
      var clean := Clean(merged);
      var content := Serialise(clean);
      if write.OpenFailed? {
        return Failure(write.error);
      }
      if write.WriteFailed? {
        var kept := if write.written < |content| then write.written else |content|;
        envFile := Some(content[..kept]);
        return Failure(write.error);
      }
      envFile := Some(content);
      processEnv := CopyToEnv(processEnv, clean);
      r := Success(true);
    }
  }
}
