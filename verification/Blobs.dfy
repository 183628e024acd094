/** Writing and reading blobs in chunks (fbird_blobs.c). */
module Blobs {
  import opened State

  const USHRT_MAX: nat := 65535

  /** A blob on the server: the segments put so far, none of them empty. */
  datatype Blob = Blob(segments: seq<seq<Byte>>)

  function Contents(segments: seq<seq<Byte>>): seq<Byte> {
    if segments == [] then [] else segments[0] + Contents(segments[1..])
  }

  lemma {:induction false} ContentsSnoc(segments: seq<seq<Byte>>, s: seq<Byte>)
    ensures Contents(segments + [s]) == Contents(segments) + s
  {
    if segments == [] { assert segments + [s] == [s] && [s][1..] == []; }
    else {
      assert (segments + [s])[1..] == segments[1..] + [s];
      ContentsSnoc(segments[1..], s);
    }
  }

  /** How the server answers a read: how much of what was asked for and is left it gives now. Any answer
      from 1 byte up is allowed; `fails` is an error on the n-th call. */
  datatype Server = Server(give: nat -> nat, fails: nat -> bool)

  class Stream {
    var segments: seq<seq<Byte>>   // what fbb_put_segment has stored
    var at: nat                    // read position in the contents
    var calls: nat

    constructor ()
      ensures segments == [] && at == 0 && calls == 0
    {
      segments, at, calls := [], 0, 0;
    }

    ghost predicate Valid()
      reads this
    {
      at <= |Contents(segments)| && forall s :: s in segments ==> 0 < |s| <= USHRT_MAX
    }

    /** fbb_put_segment */
    method PutSegment(server: Server, s: seq<Byte>) returns (ok: bool)
      requires Valid() && 0 < |s| <= USHRT_MAX
      modifies this
      ensures Valid() && at == old(at) && calls == old(calls) + 1 && ok == !server.fails(old(calls))
      ensures Contents(segments) == old(Contents(segments)) + if ok then s else []
    {
      ok := !server.fails(calls);
      calls := calls + 1;
      if ok {
        ContentsSnoc(segments, s);
        segments := segments + [s];
      }
    }

    /** fbb_get_segment: 1 at the end, -1 on error, else 0 or 2 with at least one byte and at most `size`. */
    method GetSegment(server: Server, size: nat) returns (result: int, s: seq<Byte>)
      requires Valid() && size > 0
      modifies this
      ensures Valid() && segments == old(segments) && calls == old(calls) + 1
      ensures server.fails(old(calls)) ==> result < 0 && at == old(at)
      ensures !server.fails(old(calls)) && old(at) == |Contents(segments)| ==> result == 1 && s == [] && at == old(at)
      ensures !server.fails(old(calls)) && old(at) < |Contents(segments)| ==>
                result in {0, 2} && 0 < |s| <= size && at == old(at) + |s| && at <= |Contents(segments)| &&
                s == Contents(segments)[old(at)..at]
    {
      var data := Flatten();
      if server.fails(calls) { result, s := -1, []; }
      else if at == |data| { result, s := 1, []; }
      else {
        var left := |data| - at;
        var n := server.give(calls);
        n := if n == 0 then 1 else n;
        n := if n > size then size else n;
        n := if n > left then left else n;
        result := if n < size then 2 else 0;
        s := data[at..at + n];
        at := at + n;
      }
      calls := calls + 1;
    }

    method Flatten() returns (data: seq<Byte>)
      ensures data == Contents(segments)
    {
      data := [];
      var i := 0;
      assert segments[..0] == [];
      while i < |segments|
        invariant i <= |segments| && data == Contents(segments[..i])
      {
        assert segments[..i + 1] == segments[..i] + [segments[i]];
        ContentsSnoc(segments[..i], segments[i]);
        data := data + segments[i];
        i := i + 1;
      }
      assert segments[..i] == segments;
    }
  }

  /** _php_fbird_blob_add: on success the whole string has been appended; on failure a prefix of it. */
  method BlobAdd(blob: Stream, server: Server, str: seq<Byte>) returns (ok: bool)
    requires blob.Valid()
    modifies blob
    ensures blob.Valid() && blob.at == old(blob.at)
    ensures ok ==> Contents(blob.segments) == old(Contents(blob.segments)) + str
    ensures exists n :: 0 <= n <= |str| && Contents(blob.segments) == old(Contents(blob.segments)) + str[..n]
    ensures !ok ==> exists k :: old(blob.calls) <= k < blob.calls && server.fails(k)
  {
    var put, rem := 0, |str|;
    assert str[..0] == [];
    while rem > 0
      invariant 0 <= put && 0 <= rem && put + rem == |str| && blob.Valid() && blob.at == old(blob.at) &&
                blob.calls >= old(blob.calls)
      invariant Contents(blob.segments) == old(Contents(blob.segments)) + str[..put]
    {
      var chunk := if rem > USHRT_MAX then USHRT_MAX else rem;
      ok := blob.PutSegment(server, str[put..put + chunk]);
      if !ok {
        assert Contents(blob.segments) == old(Contents(blob.segments)) + str[..put];
        return;
      }
      assert str[..put] + str[put..put + chunk] == str[..put + chunk];
      put := put + chunk;
      rem := rem - chunk;
    }
    assert str[..put] == str;
    ok := true;
  }

  ghost predicate NoFailure(server: Server, from: nat, to: nat) { forall k :: from <= k < to ==> !server.fails(k) }

  lemma OneMoreCall(server: Server, from: nat, to: nat)
    requires from <= to
    ensures NoFailure(server, from, from)
    ensures NoFailure(server, from, to + 1) <==> NoFailure(server, from, to) && !server.fails(to)
  {}

  lemma Join(s: seq<Byte>, a: nat, b: nat, c: nat)
    requires a <= b <= c <= |s|
    ensures s[a..b] + s[b..c] == s[a..c]
  {}

  /** The server's answer arrives in the caller's buffer. */
  method Deliver(buffer: array<Byte>, at: nat, s: seq<Byte>)
    requires at + |s| <= buffer.Length
    modifies buffer
    ensures buffer[..at + |s|] == old(buffer[..at]) + s
  {
    forall k | 0 <= k < |s| { buffer[at + k] := s[k]; }
  }

  /** _php_fbird_blob_get: without an error, the first `max` bytes of what is left, or all of it, however the
      server cuts its answers; a blob whose id is null is empty. The buffer of `max` + 1 bytes is never left. */
  method BlobGet(blob: Stream, isNull: bool, server: Server, max: nat) returns (ok: bool, str: seq<Byte>)
    requires blob.Valid()
    modifies blob
    ensures blob.Valid() && blob.segments == old(blob.segments)
    ensures ok <==> NoFailure(server, old(blob.calls), blob.calls)
    ensures isNull ==> ok && str == []
    ensures ok && !isNull ==> var left := Contents(blob.segments)[old(blob.at)..];
            str == if |left| <= max then left else left[..max]
  {
    if isNull { return true, []; }
    hide Contents, NoFailure;
    OneMoreCall(server, blob.calls, blob.calls);
    var buffer := new Byte[max + 1](_ => 0);
    var cur := 0;
    ghost var data := Contents(blob.segments);
    ghost var start := blob.at;
    while cur < max
      invariant cur <= max && blob.Valid() && blob.segments == old(blob.segments) && blob.at == start + cur &&
                blob.calls >= old(blob.calls)
      invariant buffer[..cur] == data[start..start + cur]
      invariant NoFailure(server, old(blob.calls), blob.calls)
      decreases max - cur
    {
      OneMoreCall(server, old(blob.calls), blob.calls);
      var result, next := ReadChunk(blob, server, buffer, cur, max);
      if result < 0 { return false, []; }
      if next == cur { break; }
      Join(data, start, start + cur, start + next);
      cur := next;
    }
    ok, str := true, buffer[..cur];
    buffer[cur] := 0;
    FirstOfRest(data, start, cur, max);
  }

  lemma FirstOfRest(data: seq<Byte>, start: nat, cur: nat, max: nat)
    requires start + cur <= |data| && cur <= max && (cur == max || start + cur == |data|)
    ensures data[start..start + cur] == if |data[start..]| <= max then data[start..] else data[start..][..max]
  {}

  /** One round of the loop: at most 65535 bytes, appended to the `cur` bytes already there; no progress
      means the end of the blob. */
  method ReadChunk(blob: Stream, server: Server, buffer: array<Byte>, cur: nat, max: nat) returns (result: int,
      next: nat)
    requires blob.Valid() && cur < max && buffer.Length == max + 1
    modifies blob, buffer
    ensures blob.Valid() && blob.segments == old(blob.segments) && blob.calls == old(blob.calls) + 1
    ensures cur <= next <= max && blob.at == old(blob.at) + (next - cur)
    ensures buffer[..next] == old(buffer[..cur]) + Contents(blob.segments)[old(blob.at)..blob.at]
    ensures result < 0 <==> server.fails(old(blob.calls))
    ensures result >= 0 && next == cur ==> blob.at == |Contents(blob.segments)|
  {
    next := cur;
    var chunk := if max - cur > USHRT_MAX then USHRT_MAX else max - cur;
    var s;
    result, s := blob.GetSegment(server, chunk);
    if result != 1 && result >= 0 && |s| > 0 {
      var n := if |s| > chunk then chunk else |s|;
      Deliver(buffer, cur, s[..n]);
      next := cur + n;
    }
  }

  /** What was added to a fresh blob is read back byte for byte with its total length, or any larger one. */
  method WriteThenRead(server: Server, str: seq<Byte>, max: nat) returns (ok: bool, back: seq<Byte>)
    requires max >= |str|
    ensures ok ==> back == str
    ensures !ok ==> exists k :: server.fails(k)
  {
    var blob := new Stream();
    ok := BlobAdd(blob, server, str);
    back := [];
    if ok {
      ghost var from := blob.calls;
      ok, back := BlobGet(blob, false, server, max);
      assert Contents(blob.segments)[0..] == str;
    }
  }
}
