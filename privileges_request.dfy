/**
 * The wire format of a privileges request (GRANT / DENY / REVOKE): after the
 * acknowledged-request header, a count of user names, the names, a count of
 * privileges and the privileges. The stream is a sequence of abstract
 * tokens; the byte encodings of counts, strings, privileges and the header
 * are not modelled.
 */
module PrivilegesRequests {
  import opened Wrappers
  import opened RoleMetadata

  /** The fields the acknowledged-request superclass writes first; their contents are not modelled. */
  datatype RequestHeader = RequestHeader(fields: seq<string>)

  /** The header of a request built in memory (the superclass defaults). */
  const DEFAULT_HEADER: RequestHeader := RequestHeader([])

  datatype Token =
    | Header(header: RequestHeader)
    | VInt(n: int)
    | Str(s: string)
    | Priv(privilege: Privilege)

  datatype ReadError =
    | EndOfStream
    | UnexpectedToken(expected: string)
    | IllegalCapacity(capacity: int)

  /** What a reader of the stream gets: the three parts of a request. */
  datatype RequestValue = RequestValue(header: RequestHeader, userNames: seq<string>, privileges: seq<Privilege>)

  /** The tokens `writeString` emits for each name, in order. */
  function StringTokens(names: seq<string>): seq<Token>
  {
    seq(|names|, i requires 0 <= i < |names| => Str(names[i]))
  }

  /** The tokens `Privilege.writeTo` emits for each privilege, in order. */
  function PrivilegeTokens(privileges: seq<Privilege>): seq<Token>
  {
    seq(|privileges|, i requires 0 <= i < |privileges| => Priv(privileges[i]))
  }

  /** The stream `writeTo` produces. */
  function Encode(header: RequestHeader, userNames: seq<string>, privileges: seq<Privilege>): seq<Token>
  {
    [Header(header), VInt(|userNames|)] + StringTokens(userNames)
      + [VInt(|privileges|)] + PrivilegeTokens(privileges)
  }

  // Single-token reads: the value read and what remains, or why the read fails.

  function TakeHeader(ts: seq<Token>): Result<(RequestHeader, seq<Token>), ReadError>
  {
    if |ts| == 0 then Err(EndOfStream)
    else if ts[0].Header? then Ok((ts[0].header, ts[1..]))
    else Err(UnexpectedToken("header"))
  }

  function TakeVInt(ts: seq<Token>): Result<(int, seq<Token>), ReadError>
  {
    if |ts| == 0 then Err(EndOfStream)
    else if ts[0].VInt? then Ok((ts[0].n, ts[1..]))
    else Err(UnexpectedToken("vint"))
  }

  function TakeString(ts: seq<Token>): Result<(string, seq<Token>), ReadError>
  {
    if |ts| == 0 then Err(EndOfStream)
    else if ts[0].Str? then Ok((ts[0].s, ts[1..]))
    else Err(UnexpectedToken("string"))
  }

  function TakePrivilege(ts: seq<Token>): Result<(Privilege, seq<Token>), ReadError>
  {
    if |ts| == 0 then Err(EndOfStream)
    else if ts[0].Priv? then Ok((ts[0].privilege, ts[1..]))
    else Err(UnexpectedToken("privilege"))
  }

  /** `n` strings read one after another. */
  function ReadStrings(ts: seq<Token>, n: nat): Result<(seq<string>, seq<Token>), ReadError>
    decreases n
  {
    if n == 0 then Ok(([], ts))
    else
      var first :- TakeString(ts);
      var others :- ReadStrings(first.1, n - 1);
      Ok(([first.0] + others.0, others.1))
  }

  /** `n` privileges read one after another. */
  function ReadPrivileges(ts: seq<Token>, n: nat): Result<(seq<Privilege>, seq<Token>), ReadError>
    decreases n
  {
    if n == 0 then Ok(([], ts))
    else
      var first :- TakePrivilege(ts);
      var others :- ReadPrivileges(first.1, n - 1);
      Ok(([first.0] + others.0, others.1))
  }

  /**
   * What the stream constructor reads: the header, a count, that many names,
   * a count and that many privileges. A negative count is refused by the
   * list allocation before anything more is read.
   */
  function Decode(ts: seq<Token>): Result<(RequestValue, seq<Token>), ReadError>
  {
    var h :- TakeHeader(ts);
    var c1 :- TakeVInt(h.1);
    if c1.0 < 0 then Err(IllegalCapacity(c1.0))
    else
      var names :- ReadStrings(c1.1, c1.0);
      var c2 :- TakeVInt(names.1);
      if c2.0 < 0 then Err(IllegalCapacity(c2.0))
      else
        var privileges :- ReadPrivileges(c2.1, c2.0);
        Ok((RequestValue(h.0, names.0, privileges.0), privileges.1))
  }

  /** A read's value without the rest of the stream. */
  function ValueOf<T>(r: Result<(T, seq<Token>), ReadError>): Result<T, ReadError>
  {
    match r
    case Ok(p) => Ok(p.0)
    case Err(e) => Err(e)
  }

  /** Items already read, put in front of the items a further read yields. */
  function Prefixed<T>(xs: seq<T>, r: Result<(seq<T>, seq<Token>), ReadError>): Result<(seq<T>, seq<Token>), ReadError>
  {
    match r
    case Ok(p) => Ok((xs + p.0, p.1))
    case Err(e) => Err(e)
  }

  lemma PrefixedNothing<T>(r: Result<(seq<T>, seq<Token>), ReadError>)
    ensures Prefixed([], r) == r
  {
    if r.Ok? {
      assert [] + r.value.0 == r.value.0;
    }
  }

  lemma PrefixedTwice<T>(xs: seq<T>, x: T, r: Result<(seq<T>, seq<Token>), ReadError>)
    ensures Prefixed(xs, Prefixed([x], r)) == Prefixed(xs + [x], r)
  {
    if r.Ok? {
      assert xs + ([x] + r.value.0) == (xs + [x]) + r.value.0;
    }
  }

  /** Reading back written names yields the names and leaves exactly what followed them. */
  lemma {:induction false} ReadStringsOfWritten(names: seq<string>, rest: seq<Token>)
    ensures ReadStrings(StringTokens(names) + rest, |names|) == Ok((names, rest))
    decreases |names|
  {
    if |names| > 0 {
      var ts := StringTokens(names) + rest;
      assert ts[1..] == StringTokens(names[1..]) + rest;
      assert TakeString(ts) == Ok((names[0], ts[1..]));
      ReadStringsOfWritten(names[1..], rest);
      assert ReadStrings(ts[1..], |names| - 1) == Ok((names[1..], rest));
      assert [names[0]] + names[1..] == names;
      assert ReadStrings(ts, |names|) == Ok(([names[0]] + names[1..], rest));
    } else {
      assert StringTokens(names) + rest == rest;
    }
  }

  /** A successful read of `n` names consumed exactly `n` string tokens and yields their strings. */
  lemma {:induction false} ReadStringsConsumed(ts: seq<Token>, n: nat)
    requires ReadStrings(ts, n).Ok?
    ensures |ReadStrings(ts, n).value.0| == n
    ensures ts == StringTokens(ReadStrings(ts, n).value.0) + ReadStrings(ts, n).value.1
    decreases n
  {
    if n > 0 {
      ReadStringsConsumed(ts[1..], n - 1);
      var names := ReadStrings(ts, n).value.0;
      assert names == [ts[0].s] + ReadStrings(ts[1..], n - 1).value.0;
      assert StringTokens(names) == [ts[0]] + StringTokens(ReadStrings(ts[1..], n - 1).value.0);
    }
  }

  /** Reading back written privileges yields the privileges and leaves exactly what followed them. */
  lemma {:induction false} ReadPrivilegesOfWritten(privileges: seq<Privilege>, rest: seq<Token>)
    ensures ReadPrivileges(PrivilegeTokens(privileges) + rest, |privileges|) == Ok((privileges, rest))
    decreases |privileges|
  {
    if |privileges| > 0 {
      var ts := PrivilegeTokens(privileges) + rest;
      assert ts[1..] == PrivilegeTokens(privileges[1..]) + rest;
      assert TakePrivilege(ts) == Ok((privileges[0], ts[1..]));
      ReadPrivilegesOfWritten(privileges[1..], rest);
      assert ReadPrivileges(ts[1..], |privileges| - 1) == Ok((privileges[1..], rest));
      assert [privileges[0]] + privileges[1..] == privileges;
      assert ReadPrivileges(ts, |privileges|) == Ok(([privileges[0]] + privileges[1..], rest));
    } else {
      assert PrivilegeTokens(privileges) + rest == rest;
    }
  }

  /** A successful read of `n` privileges consumed exactly `n` privilege tokens and yields their privileges. */
  lemma {:induction false} ReadPrivilegesConsumed(ts: seq<Token>, n: nat)
    requires ReadPrivileges(ts, n).Ok?
    ensures |ReadPrivileges(ts, n).value.0| == n
    ensures ts == PrivilegeTokens(ReadPrivileges(ts, n).value.0) + ReadPrivileges(ts, n).value.1
    decreases n
  {
    if n > 0 {
      ReadPrivilegesConsumed(ts[1..], n - 1);
      var privileges := ReadPrivileges(ts, n).value.0;
      assert privileges == [ts[0].privilege] + ReadPrivileges(ts[1..], n - 1).value.0;
      assert PrivilegeTokens(privileges) == [ts[0]] + PrivilegeTokens(ReadPrivileges(ts[1..], n - 1).value.0);
    }
  }

  /** Round trip: reading what `writeTo` wrote gives back the same request and leaves what followed. */
  lemma DecodeEncode(header: RequestHeader, userNames: seq<string>, privileges: seq<Privilege>, rest: seq<Token>)
    ensures Decode(Encode(header, userNames, privileges) + rest) == Ok((RequestValue(header, userNames, privileges), rest))
  {
    var ts := Encode(header, userNames, privileges) + rest;
    var afterNames := [VInt(|privileges|)] + PrivilegeTokens(privileges) + rest;
    assert ts[2..] == StringTokens(userNames) + afterNames;
    ReadStringsOfWritten(userNames, afterNames);
    assert afterNames[1..] == PrivilegeTokens(privileges) + rest;
    ReadPrivilegesOfWritten(privileges, rest);
  }

  /**
   * The converse: whatever the reader accepts is exactly the encoding of the
   * request it built, followed by the unread rest, so the lists have the
   * lengths of the counts read.
   */
  lemma EncodeDecode(ts: seq<Token>)
    requires Decode(ts).Ok?
    ensures ts == Encode(Decode(ts).value.0.header, Decode(ts).value.0.userNames, Decode(ts).value.0.privileges)
                  + Decode(ts).value.1
  {
    var c1 := ts[1].n;
    ReadStringsConsumed(ts[2..], c1);
    var names := ReadStrings(ts[2..], c1).value;
    var c2 := names.1[0].n;
    ReadPrivilegesConsumed(names.1[1..], c2);
    var privileges := ReadPrivileges(names.1[1..], c2).value;
    assert names.1 == [VInt(c2)] + names.1[1..];
    assert ts == [ts[0], ts[1]] + ts[2..];
    assert ts == [Header(ts[0].header), VInt(|names.0|)] + StringTokens(names.0)
                 + [VInt(|privileges.0|)] + PrivilegeTokens(privileges.0) + privileges.1;
  }

  /** An output stream: the tokens written so far. */
  class StreamOutput {
    var tokens: seq<Token>

    constructor ()
      ensures tokens == []
    {
      tokens := [];
    }

    method WriteHeader(header: RequestHeader)
      modifies this
      ensures tokens == old(tokens) + [Header(header)]
    {
      tokens := tokens + [Header(header)];
    }

    method WriteVInt(n: int)
      modifies this
      ensures tokens == old(tokens) + [VInt(n)]
    {
      tokens := tokens + [VInt(n)];
    }

    method WriteString(s: string)
      modifies this
      ensures tokens == old(tokens) + [Str(s)]
    {
      tokens := tokens + [Str(s)];
    }

    method WritePrivilege(privilege: Privilege)
      modifies this
      ensures tokens == old(tokens) + [Priv(privilege)]
    {
      tokens := tokens + [Priv(privilege)];
    }
  }

  /** An input stream: the tokens not yet read. After a failed read the rest is unspecified. */
  class StreamInput {
    var remaining: seq<Token>

    constructor (tokens: seq<Token>)
      ensures remaining == tokens
    {
      remaining := tokens;
    }

    method ReadHeader() returns (r: Result<RequestHeader, ReadError>)
      modifies this
      ensures r == ValueOf(TakeHeader(old(remaining)))
      ensures r.Ok? ==> remaining == TakeHeader(old(remaining)).value.1
    {
      r := ValueOf(TakeHeader(remaining));
      if r.Ok? {
        remaining := remaining[1..];
      }
    }

    method ReadVInt() returns (r: Result<int, ReadError>)
      modifies this
      ensures r == ValueOf(TakeVInt(old(remaining)))
      ensures r.Ok? ==> remaining == TakeVInt(old(remaining)).value.1
    {
      r := ValueOf(TakeVInt(remaining));
      if r.Ok? {
        remaining := remaining[1..];
      }
    }

    method ReadString() returns (r: Result<string, ReadError>)
      modifies this
      ensures r == ValueOf(TakeString(old(remaining)))
      ensures r.Ok? ==> remaining == TakeString(old(remaining)).value.1
    {
      r := ValueOf(TakeString(remaining));
      if r.Ok? {
        remaining := remaining[1..];
      }
    }

    method ReadPrivilege() returns (r: Result<Privilege, ReadError>)
      modifies this
      ensures r == ValueOf(TakePrivilege(old(remaining)))
      ensures r.Ok? ==> remaining == TakePrivilege(old(remaining)).value.1
    {
      r := ValueOf(TakePrivilege(remaining));
      if r.Ok? {
        remaining := remaining[1..];
      }
    }
  }

  class PrivilegesRequest {
    const header: RequestHeader
    const userNames: seq<string>
    const privileges: seq<Privilege>

    /** A request built in memory keeps the given collections, which the accessors return unchanged. */
    constructor (userNames: seq<string>, privileges: seq<Privilege>)
      ensures UserNames() == userNames && Privileges() == privileges && header == DEFAULT_HEADER
    {
      this.header := DEFAULT_HEADER;
      this.userNames := userNames;
      this.privileges := privileges;
    }

    /** The state the stream constructor ends with. */
    constructor FromStream(header: RequestHeader, userNames: seq<string>, privileges: seq<Privilege>)
      ensures this.header == header && UserNames() == userNames && Privileges() == privileges
    {
      this.header := header;
      this.userNames := userNames;
      this.privileges := privileges;
    }

    function UserNames(): seq<string>
    {
      userNames
    }

    function Privileges(): seq<Privilege>
    {
      privileges
    }

    /** `writeTo`: appends the header, the names with their count and the privileges with their count. */
    method WriteTo(out: StreamOutput)
      modifies out
      ensures out.tokens == old(out.tokens) + Encode(header, userNames, privileges)
    {
      out.WriteHeader(header);
      out.WriteVInt(|userNames|);
      for i := 0 to |userNames|
        invariant out.tokens == old(out.tokens) + [Header(header), VInt(|userNames|)] + StringTokens(userNames[..i])
      {
        assert StringTokens(userNames[..i + 1]) == StringTokens(userNames[..i]) + [Str(userNames[i])];
        out.WriteString(userNames[i]);
      }
      assert userNames[..|userNames|] == userNames;
      out.WriteVInt(|privileges|);
      ghost var afterNames := out.tokens;
      for i := 0 to |privileges|
        invariant out.tokens == afterNames + PrivilegeTokens(privileges[..i])
      {
        assert PrivilegeTokens(privileges[..i + 1]) == PrivilegeTokens(privileges[..i]) + [Priv(privileges[i])];
        out.WritePrivilege(privileges[i]);
      }
      assert privileges[..|privileges|] == privileges;
    }
  }

  /**
   * The stream constructor: reads the header, the name count, that many
   * names, the privilege count and that many privileges, failing as `Decode`
   * does and otherwise leaving the stream just after the last privilege.
   */
  method ReadPrivilegesRequest(input: StreamInput) returns (r: Result<PrivilegesRequest, ReadError>)
    modifies input
    ensures r.Err? <==> Decode(old(input.remaining)).Err?
    ensures r.Err? ==> r.error == Decode(old(input.remaining)).error
    ensures r.Ok? ==> fresh(r.value)
    ensures r.Ok? ==>
      Decode(old(input.remaining)).value
        == (RequestValue(r.value.header, r.value.userNames, r.value.privileges), input.remaining)
  {
    ghost var ts := input.remaining;
    var header :- input.ReadHeader();
    ghost var ts1 := input.remaining;
    var userNamesSize :- input.ReadVInt();
    if userNamesSize < 0 {
      return Err(IllegalCapacity(userNamesSize));
    }
    ghost var ts2 := input.remaining;
    var userNames: seq<string> := [];
    PrefixedNothing(ReadStrings(ts2, userNamesSize));
    var i := 0;
    while i < userNamesSize
      invariant 0 <= i <= userNamesSize
      invariant ReadStrings(ts2, userNamesSize) == Prefixed(userNames, ReadStrings(input.remaining, userNamesSize - i))
    {
      var name := input.ReadString();
      if name.Err? {
        return Err(name.error);
      }
      PrefixedTwice(userNames, name.value, ReadStrings(input.remaining, userNamesSize - i - 1));
      userNames := userNames + [name.value];
      i := i + 1;
    }
    ghost var ts3 := input.remaining;
    var privilegesSize :- input.ReadVInt();
    if privilegesSize < 0 {
      return Err(IllegalCapacity(privilegesSize));
    }
    ghost var ts4 := input.remaining;
    var privileges: seq<Privilege> := [];
    PrefixedNothing(ReadPrivileges(ts4, privilegesSize));
    var j := 0;
    while j < privilegesSize
      invariant 0 <= j <= privilegesSize
      invariant ReadPrivileges(ts4, privilegesSize) == Prefixed(privileges, ReadPrivileges(input.remaining, privilegesSize - j))
    {
      var privilege := input.ReadPrivilege();
      if privilege.Err? {
        return Err(privilege.error);
      }
      PrefixedTwice(privileges, privilege.value, ReadPrivileges(input.remaining, privilegesSize - j - 1));
      privileges := privileges + [privilege.value];
      j := j + 1;
    }
    assert userNames + [] == userNames;
    assert ReadStrings(ts2, userNamesSize) == Ok((userNames, ts3));
    assert privileges + [] == privileges;
    assert ReadPrivileges(ts4, privilegesSize) == Ok((privileges, input.remaining));
    var request := new PrivilegesRequest.FromStream(header, userNames, privileges);
    r := Ok(request);
  }
}
