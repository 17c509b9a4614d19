/** Byte strings and the digests of them; distinct contents have distinct digests. */
module Contents {
  type Bytes = seq<bv8>

  datatype Digest = Sha256(content: Bytes)

  function Flatten(pieces: seq<Bytes>): Bytes {
    if pieces == [] then [] else Flatten(pieces[..|pieces| - 1]) + pieces[|pieces| - 1]
  }
}

/**
  The upload of a body to a staging object: incoming chunks of any size are cut into the parts
  of a multipart upload.
 */
module ArtifactUpload {
  import opened Prelude
  import opened Contents

  const PART_SIZE := 8 * 1024 * 1024
  const SMALLEST_PART := 5 * 1024 * 1024       // what object stores demand of all parts but the last
  const MOST_PARTS := 10000
  const LARGEST_LIMIT := 10 * 1024 * 1024 * 1024

  datatype Part = Part(number: nat, content: Bytes)

  datatype UploadError = TooLarge | DigestMismatch | StorageFailed | StreamBroken

  /** How one call on the store goes wrong: it is carried out and the answer lost, or not carried out. */
  datatype Fault = Fine | Lost | Refused

  /** What goes wrong in one upload: parts, the stream, and the calls that end it. */
  datatype Faults = Faults(parts: set<nat>, stream: bool, complete: Fault, abort: Fault, again: Fault, put: Fault)

  predicate Faultless(f: Faults) {
    f.parts == {} && !f.stream && f.complete == Fine && f.abort == Fine && f.put == Fine
  }

  function PartContents(parts: seq<Part>): (r: seq<Bytes>)
    ensures |r| == |parts| && forall k :: 0 <= k < |r| ==> r[k] == parts[k].content
  {
    seq(|parts|, k requires 0 <= k < |parts| => parts[k].content)
  }

  predicate NumberedFromOne(parts: seq<Part>) {
    forall k :: 0 <= k < |parts| ==> parts[k].number == k + 1
  }

  /** The parts of `body`: in order, all but the last of full size, the last one not empty. */
  predicate Blocks(parts: seq<Part>, body: Bytes) {
    && NumberedFromOne(parts) && Flatten(PartContents(parts)) == body
    && (forall k :: 0 <= k < |parts| - 1 ==> |parts[k].content| == PART_SIZE)
    && (parts != [] ==> 0 < |parts[|parts| - 1].content| <= PART_SIZE)
  }

  lemma AppendPart(parts: seq<Part>, part: Part)
    ensures Flatten(PartContents(parts + [part])) == Flatten(PartContents(parts)) + part.content
  {
    var all := PartContents(parts + [part]);
    assert all[..|all| - 1] == PartContents(parts);
  }

  /** Moving a full part from the buffer to the parts leaves the whole as it is. */
  lemma TakePart(parts: seq<Part>, number: nat, buffer: Bytes)
    requires |buffer| >= PART_SIZE
    ensures Flatten(PartContents(parts + [Part(number, buffer[..PART_SIZE])])) + buffer[PART_SIZE..]
            == Flatten(PartContents(parts)) + buffer
  {
    AppendPart(parts, Part(number, buffer[..PART_SIZE]));
    assert buffer == buffer[..PART_SIZE] + buffer[PART_SIZE..];
  }

  lemma {:induction false} FullPartsLength(parts: seq<Part>)
    requires forall k :: 0 <= k < |parts| ==> |parts[k].content| == PART_SIZE
    ensures |Flatten(PartContents(parts))| == |parts| * PART_SIZE
  {
    if parts != [] {
      var front := parts[..|parts| - 1];
      FullPartsLength(front);
      AppendPart(front, parts[|parts| - 1]);
      assert parts == front + [parts[|parts| - 1]];
    }
  }

  /** The number of parts is the size divided by the part size, rounded up. */
  lemma PartCount(parts: seq<Part>, body: Bytes)
    requires Blocks(parts, body)
    ensures |parts| == (|body| + PART_SIZE - 1) / PART_SIZE
    ensures |body| <= LARGEST_LIMIT ==> |parts| <= 1280
  {
    if parts != [] {
      var front := parts[..|parts| - 1];
      FullPartsLength(front);
      AppendPart(front, parts[|parts| - 1]);
      assert parts == front + [parts[|parts| - 1]];
    }
  }

  lemma FrontBlocks(parts: seq<Part>, body: Bytes)
    requires NumberedFromOne(parts) && Flatten(PartContents(parts)) == body
    requires forall k :: 0 <= k < |parts| ==> |parts[k].content| == PART_SIZE
    ensures Blocks(parts, body)
  {
  }

  /** The last part holds what the full parts before it leave. */
  lemma LastPart(parts: seq<Part>, body: Bytes)
    requires Blocks(parts, body) && parts != []
    ensures var n := |parts| - 1;
            && n * PART_SIZE <= |body|
            && Blocks(parts[..n], body[..n * PART_SIZE])
            && parts[n] == Part(n + 1, body[n * PART_SIZE..])
  {
    var n := |parts| - 1;
    var front := parts[..n];
    FullPartsLength(front);
    AppendPart(front, parts[n]);
    assert parts == front + [parts[n]];
    FrontBlocks(front, body[..n * PART_SIZE]);
  }

  /** There is one way to cut a body into parts, whatever chunks it came in. */
  lemma {:induction false} BlocksUnique(a: seq<Part>, b: seq<Part>, body: Bytes)
    requires Blocks(a, body) && Blocks(b, body)
    ensures a == b
    decreases |a|
  {
    PartCount(a, body);
    PartCount(b, body);
    if a != [] {
      var n := |a| - 1;
      LastPart(a, body);
      LastPart(b, body);
      BlocksUnique(a[..n], b[..n], body[..n * PART_SIZE]);
      assert a == a[..n] + [a[n]] && b == b[..n] + [b[n]];
    }
  }

  /** The staging object of one upload and the multipart upload that fills it. */
  class Staging {
    var open: bool
    var parts: seq<Part>
    var stored: Option<Bytes>

    constructor ()
      ensures open && parts == [] && stored == None
    {
      open, parts, stored := true, [], None;
    }

    method UploadPart(number: nat, content: Bytes, failing: set<nat>) returns (ok: bool)
      requires open
      modifies this`parts
      ensures ok == (number !in failing)
      ensures parts == if ok then old(parts) + [Part(number, content)] else old(parts)
    {
      ok := number !in failing;
      if ok {
        parts := parts + [Part(number, content)];
      }
    }

    /** The demands of the object store on a multipart upload. */
    method Complete(fault: Fault) returns (ok: bool)
      requires open && 0 < |parts| <= MOST_PARTS && NumberedFromOne(parts)
      requires forall k :: 0 <= k < |parts| - 1 ==> SMALLEST_PART <= |parts[k].content|
      modifies this`open, this`stored
      ensures ok == (fault == Fine)
      ensures open == (fault == Refused)
      ensures stored == if fault == Refused then old(stored) else Some(Flatten(PartContents(parts)))
    {
      if fault != Refused {
        open, stored := false, Some(Flatten(PartContents(parts)));
      }
      ok := fault == Fine;
    }

    /** There is nothing to abort once the upload is closed. */
    method Abort(fault: Fault) returns (ok: bool)
      modifies this`open
      ensures ok == (old(open) && fault == Fine)
      ensures open == (old(open) && fault == Refused)
    {
      ok := open && fault == Fine;
      open := open && fault == Refused;
    }

    method PutEmpty(fault: Fault) returns (ok: bool)
      modifies this`stored
      ensures ok == (fault == Fine)
      ensures stored == if fault == Refused then old(stored) else Some([])
    {
      if fault != Refused {
        stored := Some([]);
      }
      ok := fault == Fine;
    }

    /** Sends what the buffer holds in full parts. */
    method SendFullParts(buffer: Bytes, failing: set<nat>) returns (rest: Bytes, ok: bool)
      requires open && NumberedFromOne(parts)
      requires forall k :: 0 <= k < |parts| ==> |parts[k].content| == PART_SIZE
      modifies this`parts
      ensures NumberedFromOne(parts)
      ensures forall k :: 0 <= k < |parts| ==> |parts[k].content| == PART_SIZE
      ensures Flatten(PartContents(parts)) + rest == Flatten(PartContents(old(parts))) + buffer
      ensures ok ==> |rest| < PART_SIZE
      ensures failing == {} ==> ok
    {
      rest, ok := buffer, true;
      ghost var total := Flatten(PartContents(parts)) + buffer;
      while |rest| >= PART_SIZE
        invariant NumberedFromOne(parts)
        invariant forall k :: 0 <= k < |parts| ==> |parts[k].content| == PART_SIZE
        invariant Flatten(PartContents(parts)) + rest == total
        decreases |rest|
      {
        var part := rest[..PART_SIZE];
        var sent := UploadPart(|parts| + 1, part, failing);
        if !sent {
          ok := false;
          return;
        }
        ghost var before := parts[..|parts| - 1];
        assert parts == before + [Part(|parts|, part)];
        TakePart(before, |parts|, rest);
        rest := rest[PART_SIZE..];
      }
    }

    /** Sends what remains as the last part, if anything remains. */
    method SendRest(buffer: Bytes, failing: set<nat>) returns (ok: bool)
      requires open && NumberedFromOne(parts) && |buffer| < PART_SIZE
      requires forall k :: 0 <= k < |parts| ==> |parts[k].content| == PART_SIZE
      modifies this`parts
      ensures ok ==> Blocks(parts, Flatten(PartContents(old(parts))) + buffer)
      ensures failing == {} ==> ok
    {
      ok := true;
      FrontBlocks(parts, Flatten(PartContents(parts)));
      if buffer == [] {
        assert Flatten(PartContents(parts)) + buffer == Flatten(PartContents(parts));
      } else {
        AppendPart(parts, Part(|parts| + 1, buffer));
        ok := UploadPart(|parts| + 1, buffer, failing);
      }
    }

    /**
      Streams a body into the staging object.  The staging object is the whole body or absent; a
      body that is left behind by an error is one whose last call was carried out unheard, and an
      upload stays open only if aborting it fails.
     */
    method Stage(chunks: seq<Bytes>, limit: nat, expected: Option<Digest>, faults: Faults)
      returns (r: Result<(nat, Digest), UploadError>)
      requires open && parts == [] && stored == None && limit <= LARGEST_LIMIT
      modifies this
      ensures var body := Flatten(chunks);
              match r
              case Ok((size, digest)) =>
                && size == |body| <= limit && digest == Sha256(body)
                && (expected == None || expected == Some(digest)) && !faults.stream
                && stored == Some(body) && Blocks(parts, body) && !open
              case Err(e) =>
                && (stored == None || (stored == Some(body) && e == StorageFailed && !open
                                       && (faults.complete == Lost || faults.put == Lost)))
                && (open ==> faults.abort == Refused || faults.again == Refused)
                && (e == TooLarge ==> |body| > limit)
                && (e == DigestMismatch ==> expected.Some? && expected.value != Sha256(body))
                && (e == StorageFailed ==> !Faultless(faults))
                && (e == StreamBroken ==> faults.stream)
      ensures Faultless(faults) ==>
                (r.Ok? <==>
                  && |Flatten(chunks)| <= limit
                  && (expected == None || expected == Some(Sha256(Flatten(chunks)))))
    {
      r := SendBody(chunks, limit, expected, faults.parts, faults.stream);
      var ok;
      if r.Err? {
        ok := Abort(faults.abort);
        return;
      }
      PartCount(parts, Flatten(chunks));
      var multipartOpen := true;
      if parts != [] {
        ok := Complete(faults.complete);
        multipartOpen := !ok;
      } else {
        ok := Abort(faults.abort);
        multipartOpen := !ok;
        if ok {
          ok := PutEmpty(faults.put);
        }
      }
      if !ok {
        if multipartOpen {
          ok := Abort(faults.again);
        }
        r := Err(StorageFailed);
      }
    }

    /** The loop over the chunks, up to the comparison of digests. */
    method SendBody(chunks: seq<Bytes>, limit: nat, expected: Option<Digest>, failing: set<nat>, broken: bool)
      returns (r: Result<(nat, Digest), UploadError>)
      requires open && parts == []
      modifies this`parts
      ensures var body := Flatten(chunks);
              match r
              case Ok((size, digest)) =>
                && size == |body| <= limit && digest == Sha256(body)
                && (expected == None || expected == Some(digest)) && !broken
                && Blocks(parts, body)
              case Err(e) =>
                && (e == TooLarge ==> |body| > limit)
                && (e == DigestMismatch ==> expected.Some? && expected.value != Sha256(body))
                && (e == StorageFailed ==> failing != {})
                && (e == StreamBroken ==> broken)
    {
      var buffer: Bytes, received: Bytes, size := [], [], 0;
      for k := 0 to |chunks|
        invariant received == Flatten(chunks[..k]) && size == |received| && size <= limit
        invariant NumberedFromOne(parts) && |buffer| < PART_SIZE
        invariant forall k :: 0 <= k < |parts| ==> |parts[k].content| == PART_SIZE
        invariant Flatten(PartContents(parts)) + buffer == received
      {
        var chunk := chunks[k];
        assert chunks[..k + 1][..k] == chunks[..k];
        if chunk != [] {
          size := size + |chunk|;
          if size > limit {
            FlattenPrefix(chunks, k + 1);
            return Err(TooLarge);
          }
          received := received + chunk;
          var ok;
          buffer, ok := SendFullParts(buffer + chunk, failing);
          if !ok {
            return Err(StorageFailed);
          }
        }
      }
      assert chunks[..|chunks|] == chunks;
      if broken {
        return Err(StreamBroken);
      }
      var sent := SendRest(buffer, failing);
      if !sent {
        return Err(StorageFailed);
      }
      var actual := Sha256(received);
      if expected.Some? && actual != expected.value {
        return Err(DigestMismatch);
      }
      r := Ok((size, actual));
    }
  }

  lemma {:induction false} FlattenPrefix(chunks: seq<Bytes>, k: nat)
    requires k <= |chunks|
    ensures |Flatten(chunks[..k])| <= |Flatten(chunks)|
  {
    if k == |chunks| {
      assert chunks[..k] == chunks;
    } else {
      var front := chunks[..|chunks| - 1];
      FlattenPrefix(front, k);
      assert front[..k] == chunks[..k];
    }
  }
}
