/** The text of a CDI spec's environment: what Allocate writes and what the watcher reads back. */
module CdiRecords {
  import opened Claims
  import opened Naming

  const VISIBLE := "NVIDIA_VISIBLE_DEVICES="
  const MIG_UUID := "MIG_UUID="
  const CUDA := "CUDA_VISIBLE_DEVICES="

  /** strings.Join(xs, ","). */
  function Join(xs: seq<string>): string {
    if xs == [] then "" else if |xs| == 1 then xs[0] else xs[0] + "," + Join(xs[1..])
  }

  /** strings.Split(s, ","): never empty. */
  function Split(s: string): (r: seq<string>)
    ensures r != []
  {
    if s == "" then [""]
    else
      var rest := Split(s[1..]);
      if s[0] == ',' then [""] + rest else [[s[0]] + rest[0]] + rest[1..]
  }

  predicate CommaFree(xs: seq<string>) {
    forall i :: 0 <= i < |xs| ==> ',' !in xs[i]
  }

  lemma {:induction false} SplitWord(x: string)
    requires ',' !in x
    ensures Split(x) == [x]
  {
    if x != "" {
      SplitWord(x[1..]);
      assert x == [x[0]] + x[1..];
    }
  }

  lemma {:induction false} SplitFirst(x: string, rest: string)
    requires ',' !in x
    ensures Split(x + "," + rest) == [x] + Split(rest)
  {
    var s := x + "," + rest;
    if x == "" {
      assert s[1..] == rest;
    } else {
      SplitFirst(x[1..], rest);
      assert s[1..] == x[1..] + "," + rest;
      assert x == [x[0]] + x[1..];
    }
  }

  /** Splitting what was joined gives the parts back, when no part contains a comma. */
  lemma {:induction false} SplitJoin(xs: seq<string>)
    requires xs != [] && CommaFree(xs)
    ensures Split(Join(xs)) == xs
  {
    if |xs| == 1 {
      SplitWord(xs[0]);
    } else {
      SplitJoin(xs[1..]);
      SplitFirst(xs[0], Join(xs[1..]));
      assert xs == [xs[0]] + xs[1..];
    }
  }

  function Indices(n: nat): (r: seq<string>)
    ensures |r| == n && forall i :: 0 <= i < n ==> r[i] == Itoa(i)
  {
    seq(n, i requires 0 <= i < n => Itoa(i))
  }

  /** convertUUIDsToIndices: as many indices as there are UUIDs. */
  method ConvertUUIDsToIndices(uuidList: string) returns (r: string)
    ensures r == Converted(uuidList)
  {
    if uuidList == "" {
      return "";
    }
    var uuids := Split(uuidList);
    var indices: seq<string> := [];
    var i := 0;
    while i < |uuids|
      invariant 0 <= i <= |uuids|
      invariant indices == Indices(i)
    {
      indices := indices + [Itoa(i)];
      i := i + 1;
    }
    r := Join(indices);
  }

  function Converted(uuidList: string): string {
    if uuidList == "" then "" else Join(Indices(|Split(uuidList)|))
  }

  /** The text after the first '=', if there is one. */
  function AfterEquals(s: string): Option<string> {
    if s == "" then None else if s[0] == '=' then Some(s[1..]) else AfterEquals(s[1..])
  }

  lemma {:induction false} AfterEqualsOf(name: string, value: string)
    requires '=' !in name
    ensures AfterEquals(name + "=" + value) == Some(value)
  {
    var s := name + "=" + value;
    if name == "" {
      assert s[1..] == value;
    } else {
      AfterEqualsOf(name[1..], value);
      assert s[1..] == name[1..] + "=" + value;
    }
  }

  /** The environment BuildCDIDevices puts into the spec. */
  function SpecEnv(envVar: string): seq<string> {
    if envVar == "" then [VISIBLE + "test", CUDA + "test"]
    else if AfterEquals(envVar).Some? then [envVar, CUDA + Converted(AfterEquals(envVar).value)]
    else [envVar]
  }

  /** What processDeviceRemoval makes of the environment: the last variable that names devices. */
  function VisibleDevices(env: seq<string>): string {
    if env == [] then ""
    else
      var e := env[|env| - 1];
      if HasPrefix(e, VISIBLE) then e[|VISIBLE|..]
      else if HasPrefix(e, MIG_UUID) then e[|MIG_UUID|..]
      else VisibleDevices(env[..|env| - 1])
  }

  method ScanEnv(env: seq<string>) returns (migUUID: string)
    ensures migUUID == VisibleDevices(env)
  {
    migUUID := "";
    var i := 0;
    while i < |env|
      invariant 0 <= i <= |env|
      invariant migUUID == VisibleDevices(env[..i])
    {
      assert env[..i + 1][..i] == env[..i];
      if HasPrefix(env[i], VISIBLE) {
        migUUID := env[i][|VISIBLE|..];
      } else if HasPrefix(env[i], MIG_UUID) {
        migUUID := env[i][|MIG_UUID|..];
      }
      i := i + 1;
    }
    assert env[..i] == env;
  }

  /** The last variable that names devices counts, under either of its two names; others do not matter. */
  lemma LastDevicesCount(env: seq<string>, e: string, v: string)
    ensures VisibleDevices(env + ["NVIDIA_VISIBLE_DEVICES=" + v]) == v
    ensures VisibleDevices(env + ["MIG_UUID=" + v]) == v
    ensures !HasPrefix(e, "NVIDIA_VISIBLE_DEVICES=") && !HasPrefix(e, "MIG_UUID=") ==>
      VisibleDevices(env + [e]) == VisibleDevices(env)
    ensures VisibleDevices([]) == ""
  {
    var a, b := "NVIDIA_VISIBLE_DEVICES=" + v, "MIG_UUID=" + v;
    assert a[..23] == VISIBLE && a[23..] == v && b[..9] == MIG_UUID && b[9..] == v;
    PrefixStarts(b, VISIBLE);
    assert (env + [e])[..|env|] == env;
  }

  lemma CudaIsNotDevices(v: string)
    ensures !HasPrefix(CUDA + v, VISIBLE) && !HasPrefix(CUDA + v, MIG_UUID)
  {
    PrefixStarts(CUDA + v, VISIBLE);
    PrefixStarts(CUDA + v, MIG_UUID);
  }

  lemma PrefixStarts(s: string, p: string)
    requires s != "" && p != ""
    ensures HasPrefix(s, p) ==> s[0] == p[0]
  {
  }

  /**
   * The watcher reads back exactly the device list Allocate wrote, and the CUDA list has one index
   * per device.
   */
  lemma EnvRoundTrip(vals: seq<string>)
    requires vals != [] && CommaFree(vals) && forall i :: 0 <= i < |vals| ==> vals[i] != ""
    ensures var env := SpecEnv(VISIBLE + Join(vals));
      && Join(vals) != ""
      && VisibleDevices(env) == Join(vals) && Split(VisibleDevices(env)) == vals
      && |env| == 2 && env[1] == CUDA + Converted(Join(vals))
      && Split(Converted(Join(vals))) == Indices(|vals|)
  {
    var name := "NVIDIA_VISIBLE_DEVICES";
    var v := Join(vals);
    assert VISIBLE + v == name + "=" + v;
    AfterEqualsOf(name, v);
    SplitJoin(vals);
    var env := SpecEnv(VISIBLE + v);
    CudaIsNotDevices(Converted(v));
    assert env == [VISIBLE + v, CUDA + Converted(v)];
    assert env[..1] == [VISIBLE + v];
    assert VisibleDevices([VISIBLE + v]) == v;
    IndicesCommaFree(|vals|);
    SplitJoin(Indices(|vals|));
  }

  lemma IndicesCommaFree(n: nat)
    ensures CommaFree(Indices(n))
  {
  }
}
