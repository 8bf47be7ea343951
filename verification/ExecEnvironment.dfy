/**
 The argv and envp arrays that exec() builds for execve(), and the environment walk of
 this_process::env::for_each() in the program that receives them.
 */
module ExecEnvironment {
  import opened Collections

  /** A char* of a null-terminated array. */
  datatype Pointer = Null | Str(s: string)

  type Entry = (string, string)

  const NUL: char := '\0'

  /** What strdup(s.c_str()) copies: everything before the first NUL. */
  function CString(s: string): (r: string)
    ensures NUL !in r
    ensures r <= s && (r == s || s[|r|] == NUL)
  {
    if s == [] || s[0] == NUL then [] else [s[0]] + CString(s[1..])
  }

  /** find_first_of('='), with |s| for npos. */
  function FindEquals(s: string): (i: nat)
    ensures i <= |s| && (i < |s| ==> s[i] == '=')
    ensures forall j :: 0 <= j < i ==> s[j] != '='
  {
    if s == [] || s[0] == '=' then 0 else 1 + FindEquals(s[1..])
  }

  /** The pair for_each() makes of a line; a line without '=' becomes both its name and its value. */
  function Split(line: string): (e: Entry)
    ensures '=' in line ==> '=' !in e.0 && line == e.0 + "=" + e.1
    ensures '=' !in line ==> e == (line, line)
    ensures NUL !in line ==> NUL !in e.0 && NUL !in e.1
  {
    var i := FindEquals(line);
    if i == |line| then (line, line) else (line[..i], line[i + 1..])
  }

  function Line(e: Entry): string {
    CString(e.0 + "=" + e.1)
  }

  /** A name without '=' and NUL, a value without NUL. */
  predicate Clean(e: Entry) {
    '=' !in e.0 && NUL !in e.0 && NUL !in e.1
  }

  /** An entry survives marshalling exactly when it is clean. */
  lemma EntryRoundTrip(e: Entry)
    ensures Split(Line(e)) == e <==> Clean(e)
  {
    if Clean(e) {
      var line := e.0 + "=" + e.1;
      assert Line(e) == line;
      assert line[|e.0|] == '=';
      assert forall j :: 0 <= j < |e.0| ==> line[j] == e.0[j];
      assert FindEquals(line) == |e.0|;
      assert line[..|e.0|] == e.0 && line[|e.0| + 1..] == e.1;
    }
  }

  /** The envp array for a sequence of entries. */
  function Marshal(entries: seq<Entry>): (a: seq<Pointer>)
    ensures |a| == |entries| + 1 && a[|entries|] == Null
    ensures forall i :: 0 <= i < |entries| ==> a[i] == Str(Line(entries[i]))
  {
    if entries == [] then [Null] else [Str(Line(entries[0]))] + Marshal(entries[1..])
  }

  /** The calls that for_each() makes of its functor. */
  function Walk(a: seq<Pointer>): seq<Entry> {
    if a == [] || a[0] == Null then [] else [Split(a[0].s)] + Walk(a[1..])
  }

  /** argv for execve: the program, the arguments, null, in an array that they fill exactly. */
  method BuildArgv(fn: string, argv: seq<string>) returns (pargv: array<Pointer>)
    ensures fresh(pargv) && pargv.Length == |argv| + 2
    ensures pargv[0] == Str(CString(fn)) && pargv[|argv| + 1] == Null
    ensures forall i :: 0 <= i < |argv| ==> pargv[i + 1] == Str(CString(argv[i]))
  {
    pargv := new Pointer[|argv| + 2](_ => Null);
    var it := 0;
    pargv[it] := Str(CString(fn));
    it := it + 1;
    for i := 0 to |argv|
      invariant it == i + 1 && pargv[0] == Str(CString(fn))
      invariant forall j :: 0 <= j < i ==> pargv[j + 1] == Str(CString(argv[j]))
    {
      pargv[it] := Str(CString(argv[i]));
      it := it + 1;
    }
    pargv[it] := Null;
  }

  method BuildEnv(env: seq<Entry>) returns (penv: array<Pointer>)
    ensures fresh(penv) && penv[..] == Marshal(env)
  {
    penv := new Pointer[|env| + 1](_ => Null);
    var it := 0;
    for i := 0 to |env|
      invariant it == i
      invariant forall j :: 0 <= j < i ==> penv[j] == Str(Line(env[j]))
    {
      penv[it] := Str(Line(env[i]));
      it := it + 1;
    }
    penv[it] := Null;
  }

  /** for_each(); environ may be a null pointer and is otherwise terminated by one. */
  method ForEach(environ: array?<Pointer>) returns (calls: seq<Entry>)
    requires environ != null ==> exists i :: 0 <= i < environ.Length && environ[i] == Null
    ensures environ == null ==> calls == []
    ensures environ != null ==> calls == Walk(environ[..])
  {
    calls := [];
    if environ == null {
      return;
    }
    ghost var end :| 0 <= end < environ.Length && environ[end] == Null;
    var it := 0;
    assert environ[0..] == environ[..];
    while environ[it] != Null
      invariant 0 <= it <= end
      invariant calls + Walk(environ[it..]) == Walk(environ[..])
      decreases end - it
    {
      var line := environ[it].s;
      assert environ[it..][1..] == environ[it + 1..];
      assert calls + ([Split(line)] + Walk(environ[it + 1..])) == (calls + [Split(line)]) + Walk(environ[it + 1..]);
      calls := calls + [Split(line)];
      it := it + 1;
    }
    assert Walk(environ[it..]) == [];
  }

  /** A std::map filled from the calls with insert(): the first entry of a name stays. */
  function Collect(calls: seq<Entry>): map<string, string> {
    if calls == [] then map[] else Collect(calls[1..])[calls[0].0 := calls[0].1]
  }

  /** order lists the names of env once each, as iterating over a std::map does. */
  ghost predicate Enumerates(order: seq<string>, env: map<string, string>) {
    && (forall i, j :: 0 <= i < j < |order| ==> order[i] != order[j])
    && (forall i :: 0 <= i < |order| ==> order[i] in env)
    && (forall k :: k in env ==> k in order)
  }

  function Entries(order: seq<string>, env: map<string, string>): (es: seq<Entry>)
    requires forall i :: 0 <= i < |order| ==> order[i] in env
    ensures |es| == |order| && forall i :: 0 <= i < |order| ==> es[i] == (order[i], env[order[i]])
  {
    if order == [] then [] else [(order[0], env[order[0]])] + Entries(order[1..], env)
  }

  /** The walk makes one call for each line up to the first null, in order. */
  lemma {:induction false} WalkUpToNull(a: seq<Pointer>, n: nat)
    requires n < |a| && a[n] == Null && forall i :: 0 <= i < n ==> a[i] != Null
    ensures |Walk(a)| == n && forall i :: 0 <= i < n ==> Walk(a)[i] == Split(a[i].s)
  {
    if n > 0 {
      WalkUpToNull(a[1..], n - 1);
    }
  }

  /** Walking what was marshalled splits each line. */
  lemma WalkMarshal(entries: seq<Entry>)
    ensures |Walk(Marshal(entries))| == |entries|
    ensures forall i :: 0 <= i < |entries| ==> Walk(Marshal(entries))[i] == Split(Line(entries[i]))
  {
    WalkUpToNull(Marshal(entries), |entries|);
  }

  lemma {:induction false} CollectSound(calls: seq<Entry>, k: string)
    requires k in Collect(calls)
    ensures exists i :: 0 <= i < |calls| && calls[i] == (k, Collect(calls)[k])
  {
    if calls[0].0 == k {
      assert calls[0] == (k, Collect(calls)[k]);
    } else {
      CollectSound(calls[1..], k);
      var i :| 0 <= i < |calls[1..]| && calls[1..][i] == (k, Collect(calls[1..])[k]);
      assert calls[i + 1] == (k, Collect(calls)[k]);
    }
  }

  /** The first call with a name decides its value. */
  lemma {:induction false} CollectComplete(calls: seq<Entry>, i: nat)
    requires i < |calls| && forall a :: 0 <= a < i ==> calls[a].0 != calls[i].0
    ensures calls[i].0 in Collect(calls) && Collect(calls)[calls[i].0] == calls[i].1
  {
    if i > 0 {
      CollectComplete(calls[1..], i - 1);
    }
  }

  /**
   Environment round trip: for every environment, in whatever order its map is walked, the
   array that exec() builds, walked by for_each(), gives back exactly that environment if
   and only if every name is free of '=' and NUL and every value is free of NUL.
   */
  lemma EnvironmentRoundTrip(order: seq<string>, env: map<string, string>)
    requires Enumerates(order, env)
    ensures Collect(Walk(Marshal(Entries(order, env)))) == env <==> forall k :: k in env ==> Clean((k, env[k]))
  {
    var entries := Entries(order, env);
    var calls := Walk(Marshal(entries));
    WalkMarshal(entries);
    if forall k :: k in env ==> Clean((k, env[k])) {
      CleanRoundTrip(order, env, calls);
    }
    if Collect(calls) == env {
      forall k | k in env ensures Clean((k, env[k])) {
        CollectSound(calls, k);
        var i :| 0 <= i < |calls| && calls[i] == (k, env[k]);
        assert calls[i] == Split(Line(entries[i]));
      }
    }
  }

  lemma CleanRoundTrip(order: seq<string>, env: map<string, string>, calls: seq<Entry>)
    requires Enumerates(order, env) && |calls| == |order|
    requires forall i :: 0 <= i < |order| ==> calls[i] == Split(Line((order[i], env[order[i]])))
    requires forall k :: k in env ==> Clean((k, env[k]))
    ensures Collect(calls) == env
  {
    forall i | 0 <= i < |order| ensures calls[i] == (order[i], env[order[i]]) {
      EntryRoundTrip((order[i], env[order[i]]));
    }
    CollectEntries(order, env, calls);
  }

  lemma CollectEntries(order: seq<string>, env: map<string, string>, calls: seq<Entry>)
    requires Enumerates(order, env) && |calls| == |order|
    requires forall i :: 0 <= i < |order| ==> calls[i] == (order[i], env[order[i]])
    ensures Collect(calls) == env
  {
    var m := Collect(calls);
    forall k | k in env ensures k in m && m[k] == env[k] {
      var i :| 0 <= i < |order| && order[i] == k;
      CollectComplete(calls, i);
    }
    forall k | k in m ensures k in env {
      CollectSound(calls, k);
    }
    SameMap(env, m);
  }
}
