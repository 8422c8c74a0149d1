/** The pull-request draft: a file that anybody may change, and a digest in memory that says which
    text this session wrote. */
module DraftStore {
  import opened Basics

  /** What is at the path; `Text` holds the characters as they are stored. */
  datatype FileState = Missing | Unreadable | Undecodable | Text(raw: string)

  datatype Reading = Got(text: string) | Nothing | Raised

  /** Reading in text mode turns every line ending into a newline. */
  function Universal(s: string): string {
    if s == [] then []
    else if s[0] == '\r' then ['\n'] + Universal(if |s| > 1 && s[1] == '\n' then s[2..] else s[1..])
    else [s[0]] + Universal(s[1..])
  }

  datatype Store = Store(file: FileState, digest: Option<string>)

  /** Everything that can happen between two reads. `Outside` is any change by anybody else. */
  datatype Op =
    | Clear(removeFile: bool, unlinkFails: bool)
    | Write(text: string, fails: bool)
    | Outside(file: FileState)

  function Apply(sha: string -> string, st: Store, op: Op): Store {
    match op
    case Clear(removeFile, unlinkFails) => Store(if removeFile && !unlinkFails then Missing else st.file, None)
    case Write(text, fails) => if fails then st else Store(Text(text), Some(sha(text)))
    case Outside(file) => st.(file := file)
  }

  function Read(sha: string -> string, st: Store): Reading {
    if st.digest.None? then Nothing
    else match st.file
      case Missing => Nothing
      case Unreadable => Nothing
      case Undecodable => Raised
      case Text(raw) => if Some(sha(Universal(raw))) == st.digest then Got(Universal(raw)) else Nothing
  }

  class PrDraftStore {
    const sha: string -> string
    var file: FileState
    var currentDigest: Option<string>
    /** The text of the latest successful write since the last clear. */
    ghost var lastWritten: Option<string>

    /** Says nothing about the file: that belongs to everybody. */
    ghost predicate Valid()
      reads this
    {
      currentDigest == if lastWritten.Some? then Some(sha(lastWritten.value)) else None
    }

    ghost function Now(): Store
      reads this
    {
      Store(file, currentDigest)
    }

    /** A new session trusts nothing, whatever it finds at the path. */
    constructor (sha: string -> string, file: FileState)
      ensures this.sha == sha && Now() == Store(file, None)
      ensures Valid() && lastWritten == None
    {
      this.sha := sha;
      this.file := file;
      currentDigest := None;
      lastWritten := None;
    }

    method ClearDraft(removeFile: bool, unlinkFails: bool)
      modifies this
      ensures Now() == Apply(sha, old(Now()), Clear(removeFile, unlinkFails))
      ensures Valid() && lastWritten == None
      ensures file == old(file) || (file.Missing? && removeFile && !unlinkFails)
    {
      currentDigest := None;
      lastWritten := None;
      if !removeFile {
        return;
      }
      if !unlinkFails {
        file := Missing;
      }
    }

    /** False: the atomic write raised, and nothing was replaced. */
    method WriteText(text: string, fails: bool) returns (ok: bool)
      requires Valid()
      modifies this
      ensures ok == !fails
      ensures Now() == Apply(sha, old(Now()), Write(text, fails))
      ensures Valid() && lastWritten == if ok then Some(text) else old(lastWritten)
    {
      if fails {
        return false;
      }
      file := Text(text);
      currentDigest := Some(sha(text));
      lastWritten := Some(text);
      return true;
    }

    /** A text comes back only as the one this session wrote last, whoever touched the file since;
        None stands for everything that is not to be trusted, except bytes that do not decode. */
    method ReadCurrentText() returns (r: Reading)
      requires Valid()
      ensures r == Read(sha, Now())
      ensures Injective(sha) ==>
                forall text :: r == Got(text) <==> lastWritten == Some(text) && ReadsAs(file, text)
      ensures r.Raised? <==> lastWritten.Some? && file.Undecodable?
    {
      if currentDigest.None? {
        return Nothing;
      }
      if file.Missing? || file.Unreadable? {
        return Nothing;
      }
      if file.Undecodable? {
        return Raised;
      }
      var text := Universal(file.raw);
      if Some(sha(text)) != currentDigest {
        return Nothing;
      }
      return Got(text);
    }
  }

  ghost predicate ReadsAs(file: FileState, text: string) {
    file.Text? && Universal(file.raw) == text
  }

  // ---- Over whole histories ---------------------------------------------------------------------------

  function Run(sha: string -> string, start: FileState, ops: seq<Op>): Store {
    if ops == [] then Store(start, None) else Apply(sha, Run(sha, start, ops[..|ops| - 1]), ops[|ops| - 1])
  }

  /** The text of the latest successful write since the last clear. */
  function LastWritten(ops: seq<Op>): Option<string> {
    if ops == [] then None
    else match ops[|ops| - 1]
      case Clear(_, _) => None
      case Write(text, fails) => if fails then LastWritten(ops[..|ops| - 1]) else Some(text)
      case Outside(_) => LastWritten(ops[..|ops| - 1])
  }

  lemma {:induction false} DigestFollowsWrites(sha: string -> string, start: FileState, ops: seq<Op>)
    ensures Run(sha, start, ops).digest
            == if LastWritten(ops).Some? then Some(sha(LastWritten(ops).value)) else None
  {
    if ops != [] { DigestFollowsWrites(sha, start, ops[..|ops| - 1]); }
  }

  /** In every history, with outsiders changing the file at will and writes failing: a text is read
      exactly when it is the latest successfully written one since the last clear and the file still
      reads as that text. This takes SHA-256 to be injective. */
  lemma ReadIff(sha: string -> string, start: FileState, ops: seq<Op>, text: string)
    requires Injective(sha)
    ensures var st := Run(sha, start, ops);
            Read(sha, st) == Got(text)
            <==> LastWritten(ops) == Some(text) && ReadsAs(st.file, text)
  {
    DigestFollowsWrites(sha, start, ops);
  }

  lemma {:induction false} UniversalIff(s: string)
    ensures '\r' !in Universal(s)
    ensures Universal(s) == s <==> '\r' !in s
    decreases |s|
  {
    if s != [] {
      var rest := if s[0] == '\r' && |s| > 1 && s[1] == '\n' then s[2..] else s[1..];
      UniversalIff(rest);
      assert s == [s[0]] + s[1..];
    }
  }

  /** Right after a successful write the text can be read back exactly when it has no carriage
      return; otherwise the session's own draft is not trusted. */
  lemma FreshDraftReadsBackIff(sha: string -> string, start: FileState, ops: seq<Op>, text: string)
    requires Injective(sha)
    ensures Read(sha, Run(sha, start, ops + [Write(text, false)]))
            == if '\r' !in text then Got(text) else Nothing
  {
    var all := ops + [Write(text, false)];
    assert all[..|ops|] == ops;
    UniversalIff(text);
  }

  /** In every history the read raises instead of answering None if and only if a text has been
      written since the last clear and the file by now holds bytes that do not decode. */
  lemma RaisesIff(sha: string -> string, start: FileState, ops: seq<Op>)
    ensures Read(sha, Run(sha, start, ops)).Raised?
            <==> LastWritten(ops).Some? && Run(sha, start, ops).file.Undecodable?
  {
    DigestFollowsWrites(sha, start, ops);
  }

  /** It happens: somebody overwrites the draft with bytes that are not UTF-8. */
  lemma UndecodableRaises(sha: string -> string, start: FileState, text: string)
    ensures Read(sha, Run(sha, start, [Write(text, false), Outside(Undecodable)])).Raised?
  {
    var ops := [Write(text, false), Outside(Undecodable)];
    assert ops[..1] == [Write(text, false)];
    assert LastWritten(ops[..1]) == Some(text);
    RaisesIff(sha, start, ops);
  }
}
