/** `loadEnv` from `scripts/setup-db.mjs`: reading `.env` lines into the
    process environment without overriding variables that are already set. */
module SetupDb {
  import opened Wrappers
  import opened JsStrings

  /** A `KEY=value` line split at its first `=`. */
  datatype Entry = Entry(key: string, value: string)

  /** One line of the file: `None` for a blank line or a `#` comment;
      otherwise the trimmed line split at its first `=`, the key before it
      and everything after it (later `=` kept) as the value. Neither part is
      trimmed again. */
  function ParseLine(line: string): (r: Option<Entry>)
    ensures r.None? <==> AllWhitespace(line) || Trim(line)[0] == '#'
    ensures r.Some? ==> '=' !in r.value.key
  {
    ParseTrimmed(Trim(line))
  }

  /** A trimmed line: skipped when empty or a comment, otherwise split. */
  function ParseTrimmed(trimmed: string): (r: Option<Entry>)
    ensures r.None? <==> trimmed == "" || trimmed[0] == '#'
    ensures r.Some? ==> '=' !in r.value.key
    ensures r.Some? && '=' in trimmed ==> trimmed == r.value.key + "=" + r.value.value
    ensures r.Some? && '=' !in trimmed ==> r.value == Entry(trimmed, "")
  {
    if trimmed == "" || trimmed[0] == '#' then None else Some(SplitEntry(trimmed))
  }

  /** The key before the first `=` and the value after it; with no `=`,
      the whole text is the key and the value is empty. */
  function SplitEntry(trimmed: string): (e: Entry)
    ensures '=' !in e.key
    ensures '=' in trimmed ==> trimmed == e.key + "=" + e.value
    ensures '=' !in trimmed ==> e == Entry(trimmed, "")
  {
    if '=' in trimmed then
      var i := IndexOf(trimmed, '=');
      Entry(trimmed[..i], trimmed[i + 1..])
    else
      Entry(trimmed, "")
  }

  /** `SplitEntry` is the destructuring `[key, ...valueParts] =
      trimmed.split('=')` followed by `valueParts.join('=')`: later `=`
      characters stay in the value, and key, `=` and value rebuild the line. */
  lemma SplitEntryIsSplitJoin(trimmed: string)
    ensures var parts := Split(trimmed, '=');
      SplitEntry(trimmed) == Entry(parts[0], Join(parts[1..], '='))
    ensures '=' in trimmed ==> trimmed == SplitEntry(trimmed).key + "=" + SplitEntry(trimmed).value
    ensures '=' !in SplitEntry(trimmed).key
  {
    SplitAtFirst(trimmed, '=');
  }

  /** Whether an entry is written: key and value non-empty, and the variable
      unset or empty. */
  predicate Applies(env: map<string, string>, e: Entry) {
    e.key != "" && e.value != "" && (e.key !in env || env[e.key] == "")
  }

  /** The environment after one parsed line. */
  function ApplyEntry(env: map<string, string>, e: Option<Entry>): (r: map<string, string>)
    ensures env.Keys <= r.Keys
    ensures forall k :: k in env && env[k] != "" ==> r[k] == env[k]
    ensures forall k :: k in r && (e.None? || e.value.key != k) ==> k in env && r[k] == env[k]
    ensures e.Some? && Applies(env, e.value) ==> e.value.key in r && r[e.value.key] == e.value.value
  {
    match e
    case Some(e) => if Applies(env, e) then env[e.key := e.value] else env
    case None => env
  }

  /** The environment after the given parsed lines, applied in order. */
  function ApplyEntries(env: map<string, string>, es: seq<Option<Entry>>): (r: map<string, string>)
    ensures env.Keys <= r.Keys
    ensures forall k :: k in r && k !in env ==> Mentions(es, k)
  {
    if es == [] then env
    else
      var init := es[..|es| - 1];
      var r := ApplyEntry(ApplyEntries(env, init), es[|es| - 1]);
      MentionsExtends(es, init);
      r
  }

  /** A key some line of a prefix mentions is mentioned by the whole file. */
  lemma MentionsExtends(es: seq<Option<Entry>>, init: seq<Option<Entry>>)
    requires es != [] && init == es[..|es| - 1]
    ensures forall k :: Mentions(init, k) ==> Mentions(es, k)
    ensures es[|es| - 1].Some? ==> Mentions(es, es[|es| - 1].value.key)
  {
    forall k | Mentions(init, k) ensures Mentions(es, k) {
      var i :| 0 <= i < |init| && init[i].Some? && init[i].value.key == k;
      assert es[i] == init[i];
    }
  }

  lemma ApplyEntriesSnoc(env: map<string, string>, es: seq<Option<Entry>>, i: nat)
    requires i < |es|
    ensures ApplyEntries(env, es[..i + 1]) == ApplyEntry(ApplyEntries(env, es[..i]), es[i])
  {
    assert es[..i + 1][..i] == es[..i];
  }

  /** Every line of the file, parsed. */
  function ParseLines(lines: seq<string>): (es: seq<Option<Entry>>)
    ensures |es| == |lines|
  {
    if lines == [] then [] else ParseLines(lines[..|lines| - 1]) + [ParseLine(lines[|lines| - 1])]
  }

  lemma {:induction false} ParseLinesAt(lines: seq<string>, i: nat)
    requires i < |lines|
    ensures ParseLines(lines)[i] == ParseLine(lines[i])
  {
    if i < |lines| - 1 {
      ParseLinesAt(lines[..|lines| - 1], i);
    }
  }

  /** The process environment the script runs in. */
  class ProcessEnv {
    var vars: map<string, string>

    constructor(initial: map<string, string>)
      ensures vars == initial
    {
      vars := initial;
    }

    /** `loadEnv()`: `envFile` is the text of `.env`, `None` when reading it
        fails (the exception is swallowed and nothing changes). */
    method LoadEnv(envFile: Option<string>)
      modifies this
      ensures envFile.None? ==> vars == old(vars)
      ensures envFile.Some? ==> vars == ApplyEntries(old(vars), ParseLines(Split(envFile.value, '\n')))
    {
      if envFile.None? {
        return;
      }
      ApplyLines(Split(envFile.value, '\n'));
    }

    /** The loop of `loadEnv` over the lines of the file: each line is
        parsed and its entry, if any, written in turn. */
    method ApplyLines(lines: seq<string>)
      modifies this
      ensures vars == ApplyEntries(old(vars), ParseLines(lines))
    {
      ghost var es := ParseLines(lines);
      assert es[..0] == [];
      var i := 0;
      while i < |lines|
        invariant 0 <= i <= |lines|
        invariant vars == ApplyEntries(old(vars), es[..i])
      {
        var entry := ParseLine(lines[i]);
        ParseLinesAt(lines, i);
        ApplyEntriesSnoc(old(vars), es, i);
        WriteEntry(entry);
        i := i + 1;
      }
      assert es[..|lines|] == es;
    }

    /** The body of the loop after parsing: an entry is written only when
        key and value are non-empty and the variable is unset or empty. */
    method WriteEntry(entry: Option<Entry>)
      modifies this
      ensures vars == ApplyEntry(old(vars), entry)
    {
      if entry.Some? {
        var key, value := entry.value.key, entry.value.value;
        if key != "" && value != "" && (key !in vars || vars[key] == "") {
          vars := vars[key := value];
        }
      }
    }
  }

  // ---------------------------------------------------------------------
  // Properties
  // ---------------------------------------------------------------------

  /** The value the first applicable line for `key` gives, scanning from the
      top of the file. */
  function FirstValue(es: seq<Option<Entry>>, key: string): (r: Option<string>)
    ensures r.Some? ==> r.value != "" && key != ""
  {
    if es == [] then None
    else if es[0].Some? && es[0].value.key == key && key != "" && es[0].value.value != "" then Some(es[0].value.value)
    else FirstValue(es[1..], key)
  }

  /** Whether some line of the file is an entry for `key`. */
  predicate Mentions(es: seq<Option<Entry>>, key: string) {
    exists i :: 0 <= i < |es| && es[i].Some? && es[i].value.key == key
  }

  /** A variable that already has a non-empty value is never overwritten. */
  lemma {:induction false} NeverOverrides(env: map<string, string>, es: seq<Option<Entry>>, key: string)
    requires key in env && env[key] != ""
    ensures key in ApplyEntries(env, es) && ApplyEntries(env, es)[key] == env[key]
  {
    if es != [] {
      NeverOverrides(env, es[..|es| - 1], key);
    }
  }

  /** Variables the file does not mention keep their state, set or unset. */
  lemma {:induction false} UnmentionedUnchanged(env: map<string, string>, es: seq<Option<Entry>>, key: string)
    requires !Mentions(es, key)
    ensures key in ApplyEntries(env, es) <==> key in env
    ensures key in env ==> ApplyEntries(env, es)[key] == env[key]
  {
    if es != [] {
      var init := es[..|es| - 1];
      assert !Mentions(init, key) by {
        forall i | 0 <= i < |init| ensures !(init[i].Some? && init[i].value.key == key) {
          assert init[i] == es[i];
        }
      }
      UnmentionedUnchanged(env, init, key);
    }
  }

  /** Adding a line at the end: the first value is unchanged if there was
      one, otherwise it is the new line's. */
  lemma {:induction false} FirstValueSnoc(es: seq<Option<Entry>>, e: Option<Entry>, key: string)
    ensures FirstValue(es + [e], key) ==
      if FirstValue(es, key).Some? then FirstValue(es, key)
      else FirstValue([e], key)
  {
    if es != [] {
      assert (es + [e])[0] == es[0];
      assert (es + [e])[1..] == es[1..] + [e];
      FirstValueSnoc(es[1..], e, key);
    } else {
      assert es + [e] == [e];
    }
  }

  /** One line, for a variable unset or empty: an applicable entry for it
      sets it, anything else leaves it as it was. */
  lemma LineSets(env: map<string, string>, e: Option<Entry>, key: string)
    requires key !in env || env[key] == ""
    ensures FirstValue([e], key).Some? ==>
      key in ApplyEntry(env, e) && ApplyEntry(env, e)[key] == FirstValue([e], key).value
    ensures FirstValue([e], key).None? ==>
      (key in ApplyEntry(env, e) <==> key in env) && (key in env ==> ApplyEntry(env, e)[key] == "")
  {
    assert [e][0] == e && [e][1..] == [];
    assert FirstValue([], key) == None;
    if e.Some? && e.value.key == key && key != "" && e.value.value != "" {
      assert FirstValue([e], key) == Some(e.value.value);
    } else {
      assert FirstValue([e], key) == None;
    }
  }

  /** For a variable unset or empty beforehand, the first applicable line
      of the file wins; later duplicates are ignored. */
  lemma {:induction false} FirstOccurrenceWins(env: map<string, string>, es: seq<Option<Entry>>, key: string)
    requires key !in env || env[key] == ""
    requires FirstValue(es, key).Some?
    ensures key in ApplyEntries(env, es) && ApplyEntries(env, es)[key] == FirstValue(es, key).value
  {
    var init, last := es[..|es| - 1], es[|es| - 1];
    assert es == init + [last];
    FirstValueSnoc(init, last, key);
    if FirstValue(init, key).Some? {
      FirstOccurrenceWins(env, init, key);
    } else {
      NotYetSet(env, init, key);
      LineSets(ApplyEntries(env, init), last, key);
    }
  }

  /** While no applicable line for `key` has been read, the variable keeps
      its unset or empty state. */
  lemma {:induction false} NotYetSet(env: map<string, string>, es: seq<Option<Entry>>, key: string)
    requires key !in env || env[key] == ""
    requires FirstValue(es, key).None?
    ensures key !in ApplyEntries(env, es) || ApplyEntries(env, es)[key] == ""
    ensures key in ApplyEntries(env, es) <==> key in env
  {
    if es != [] {
      var init, last := es[..|es| - 1], es[|es| - 1];
      assert es == init + [last];
      FirstValueSnoc(init, last, key);
      NotYetSet(env, init, key);
      LineSets(ApplyEntries(env, init), last, key);
    }
  }

  /** A line without `=`, or ending in `=`, never writes anything. */
  lemma EmptyValueIgnored(env: map<string, string>, line: string)
    requires ParseLine(line).Some? && ParseLine(line).value.value == ""
    ensures ApplyEntry(env, ParseLine(line)) == env
  {
  }

  /** Keys and values are not trimmed on their own: `A = b` sets `"A "` to
      `" b"`. */
  lemma SpacesAroundEqualsKept()
    ensures ParseLine("A = b") == Some(Entry("A ", " b"))
  {
    var t := "A = b";
    assert !IsJsWhitespace(t[0]) && !IsJsWhitespace(t[|t| - 1]);
    assert TrimStart(t) == t;
    assert TrimEnd(t) == t;
    assert t[2] == '=' && t[..2] == "A ";
    IndexOfIs(t, '=', 2);
    assert t[3..] == " b";
  }
}
