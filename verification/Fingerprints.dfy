/** The readiness fingerprint: the files, modes and tool versions that it covers. */
module Fingerprints {
  import opened Basics
  import opened Encoding

  const SCHEMA: nat := 2

  /** A checked-out hook script. */
  datatype Hook = Hook(name: string, mode: nat, bytes: Bytes)

  /** The files that decide whether an environment is the right one. */
  datatype Source = Source(pyproject: Bytes, lockfile: Bytes, preCommit: Bytes, hooks: seq<Hook>,
                           installer: Bytes, status: Bytes)

  /** Text encoding and SHA-256, taken as given. */
  datatype Codec = Codec(utf8: string -> Bytes, sha: Bytes -> string)

  function TextField(codec: Codec, tag: string, text: string): Field {
    Field(codec.utf8(tag), codec.utf8(text))
  }

  function FileField(codec: Codec, tag: string, bytes: Bytes): Field {
    Field(codec.utf8(tag), bytes)
  }

  function HookFields(codec: Codec, hooks: seq<Hook>): (r: seq<Field>)
    ensures |r| == 2 * |hooks|
  {
    if hooks == [] then []
    else [TextField(codec, "hook:" + hooks[0].name + ":mode", Numeral(hooks[0].mode, 8)),
          FileField(codec, "hook:" + hooks[0].name + ":bytes", hooks[0].bytes)]
         + HookFields(codec, hooks[1..])
  }

  function Fields(codec: Codec, src: Source, python: string, uv: string): seq<Field> {
    [TextField(codec, "schema", Numeral(SCHEMA, 10)),
     FileField(codec, "pyproject.toml", src.pyproject),
     FileField(codec, "uv.lock", src.lockfile),
     FileField(codec, ".pre-commit-config.yaml", src.preCommit)]
    + HookFields(codec, src.hooks)
    + [FileField(codec, "hook-utility:install.py", src.installer),
       FileField(codec, "hook-utility:status.py", src.status),
       TextField(codec, "project-python", python),
       TextField(codec, "uv-version", uv)]
  }

  function Fingerprint(codec: Codec, src: Source, python: string, uv: string): string {
    "sha256:" + codec.sha(Framed(Fields(codec, src, python, uv)))
  }

  lemma HookTagInjective(a: string, b: string)
    requires "hook:" + a + ":mode" == "hook:" + b + ":mode"
    ensures a == b
  {
    var x, y := "hook:" + a + ":mode", "hook:" + b + ":mode";
    assert x[5..|x| - 5] == a && y[5..|y| - 5] == b;
  }

  lemma HookInjective(codec: Codec, a: Hook, b: Hook)
    requires Injective(codec.utf8)
    requires TextField(codec, "hook:" + a.name + ":mode", Numeral(a.mode, 8))
             == TextField(codec, "hook:" + b.name + ":mode", Numeral(b.mode, 8))
    requires FileField(codec, "hook:" + a.name + ":bytes", a.bytes)
             == FileField(codec, "hook:" + b.name + ":bytes", b.bytes)
    ensures a == b
  {
    assert codec.utf8("hook:" + a.name + ":mode") == codec.utf8("hook:" + b.name + ":mode");
    HookTagInjective(a.name, b.name);
    assert codec.utf8(Numeral(a.mode, 8)) == codec.utf8(Numeral(b.mode, 8));
    NumeralInjective(a.mode, b.mode, 8);
  }

  lemma {:induction false} HookFieldsInjective(codec: Codec, a: seq<Hook>, b: seq<Hook>)
    requires Injective(codec.utf8) && HookFields(codec, a) == HookFields(codec, b)
    ensures a == b
  {
    assert |a| == |b|;
    if a != [] {
      var fa, fb := HookFields(codec, a), HookFields(codec, b);
      assert fa[0] == fb[0] && fa[1] == fb[1];
      HookInjective(codec, a[0], b[0]);
      assert fa[2..] == HookFields(codec, a[1..]) && fb[2..] == HookFields(codec, b[1..]);
      HookFieldsInjective(codec, a[1..], b[1..]);
      assert a == [a[0]] + a[1..] && b == [b[0]] + b[1..];
    }
  }

  lemma FieldsInjective(codec: Codec, s: Source, python: string, uv: string, t: Source, python': string, uv': string)
    requires Injective(codec.utf8)
    requires Fields(codec, s, python, uv) == Fields(codec, t, python', uv')
    ensures s == t && python == python' && uv == uv'
  {
    var x, y := Fields(codec, s, python, uv), Fields(codec, t, python', uv');
    var n := |x| - 4;
    assert n == 4 + |HookFields(codec, s.hooks)| && n == 4 + |HookFields(codec, t.hooks)|;
    assert x[4..n] == HookFields(codec, s.hooks) && y[4..n] == HookFields(codec, t.hooks);
    HookFieldsInjective(codec, s.hooks, t.hooks);
    assert x[1] == y[1] && x[2] == y[2] && x[3] == y[3];
    assert x[n] == y[n] && x[n + 1] == y[n + 1] && x[n + 2] == y[n + 2] && x[n + 3] == y[n + 3];
    assert codec.utf8(python) == codec.utf8(python') && codec.utf8(uv) == codec.utf8(uv');
  }

  /** Workspaces with one fingerprint have the same inputs, hook modes and tool versions; this
      takes SHA-256 to be injective. */
  lemma FingerprintTellsApart(codec: Codec, s: Source, python: string, uv: string,
                              t: Source, python': string, uv': string)
    requires Injective(codec.utf8) && Injective(codec.sha)
    requires Fits(Fields(codec, s, python, uv)) && Fits(Fields(codec, t, python', uv'))
    requires Fingerprint(codec, s, python, uv) == Fingerprint(codec, t, python', uv')
    ensures s == t && python == python' && uv == uv'
  {
    var x, y := Fingerprint(codec, s, python, uv), Fingerprint(codec, t, python', uv');
    assert x[7..] == codec.sha(Framed(Fields(codec, s, python, uv)));
    assert y[7..] == codec.sha(Framed(Fields(codec, t, python', uv')));
    FramedInjective(Fields(codec, s, python, uv), Fields(codec, t, python', uv'));
    FieldsInjective(codec, s, python, uv, t, python', uv');
  }

  /** None: some length does not fit and the fingerprint fails. */
  method ComputeFingerprint(codec: Codec, src: Source, python: string, uv: string) returns (r: Option<string>)
    ensures r.Some? <==> Fits(Fields(codec, src, python, uv))
    ensures r.Some? ==> r.value == Fingerprint(codec, src, python, uv)
  {
    var fed := FramedInput(Fields(codec, src, python, uv));
    r := if fed.Some? then Some("sha256:" + codec.sha(fed.value)) else None;
  }
}
