// Readers and writers, and strictjson/strictjson.go's bounded read of one input.
module Io {
  import opened Basics

  newtype byte = x: int | 0 <= x < 256

  datatype ReadErr = EndOfFile | Broken

  // An io.Reader, whatever the sizes of its reads: `rest` is what it has still to deliver before `end`, which
  // may come with the last bytes and is then repeated for ever. It returns no bytes and no error at most
  // `stalls` more times; `idle` is whether it did so last.
  class Reader {
    const end: ReadErr
    var rest: seq<byte>
    var stalls: nat
    ghost var idle: bool

    constructor (rest: seq<byte>, end: ReadErr, stalls: nat)
      ensures this.rest == rest && this.end == end && this.stalls == stalls && !idle
    {
      this.rest, this.end, this.stalls, this.idle := rest, end, stalls, false;
    }

    method Read(room: nat) returns (data: seq<byte>, err: Option<ReadErr>)
      requires room > 0
      modifies this
      ensures |data| <= room && old(rest) == data + rest
      ensures err.Some? ==> err.value == end && rest == []
      ensures |data| == 0 && err.None? ==> stalls < old(stalls)
      ensures |data| > 0 || err.Some? ==> stalls == old(stalls)
      ensures idle <==> |data| == 0 && err.None?
    {
      var n: nat :| n <= room && n <= |rest|;
      var last: bool :| true;
      data, rest := rest[..n], rest[n..];
      if rest == [] && (last || (n == 0 && stalls == 0)) {
        err := Some(end);
      } else {
        err := None;
        if n == 0 {
          if stalls == 0 {
            data, rest := rest[..1], rest[1..];
          } else {
            stalls := stalls - 1;
          }
        }
      }
      idle := |data| == 0 && err.None?;
    }
  }
}

module BoundedRead {
  import opened Basics
  import opened Io

  newtype int64 = x: int | -0x8000_0000_0000_0000 <= x < 0x8000_0000_0000_0000

  datatype Outcome =
    | BadLimit
    | ReadError(err: ReadErr)
    | NoProgress
    | TooLarge
    | PassedOn(data: seq<byte>)

  // io.ReadAll over an io.LimitedReader: the data read, the budget left, and an error other than EOF.
  method ReadAllLimited(r: Reader, limit: int64) returns (data: seq<byte>, left: int64, err: Option<ReadErr>)
    requires limit > 0
    modifies r
    ensures 0 <= left <= limit && |data| == limit as int - left as int
    ensures old(r.rest) == data + r.rest && r.stalls <= old(r.stalls)
    ensures err.Some? ==> err.value == Broken == r.end && r.rest == []
    ensures err.None? && left > 0 ==> r.end == EndOfFile && r.rest == []
    ensures !r.idle && (left > 0 ==> r.rest == [])
  {
    data, left := [], limit;
    while left > 0
      invariant 0 <= left <= limit && |data| == limit as int - left as int
      invariant old(r.rest) == data + r.rest && r.stalls <= old(r.stalls)
      invariant left == 0 ==> !r.idle
      decreases left, r.stalls
    {
      var buffer: nat :| buffer > 0;
      var chunk, e := r.Read(if buffer > left as int then left as int else buffer);
      ghost var before := data;
      data := data + chunk;
      left := left - |chunk| as int64;
      if e.Some? {
        return data, left, if e == Some(EndOfFile) then None else e;
      }
    }
    err := None;
  }

  // DecodeReader up to the point where it hands its data to decode, for every script of the reader `r`.
  method DecodeReader(r: Reader, maxBytes: int64) returns (outcome: Outcome)
    modifies r
    ensures maxBytes <= 0 <==> outcome == BadLimit
    ensures outcome == BadLimit ==> r.rest == old(r.rest)
    // At most maxBytes + 1 bytes are consumed, from the front of the stream.
    ensures exists used :: old(r.rest) == used + r.rest && (maxBytes > 0 ==> |used| <= maxBytes as int + 1)
    // The data passed on is the complete stream, which ended cleanly within the bound.
    ensures outcome.PassedOn? ==>
            outcome.data == old(r.rest) && |old(r.rest)| <= maxBytes as int && r.end == EndOfFile
    ensures outcome == TooLarge ==> |old(r.rest)| > maxBytes as int
    ensures outcome.ReadError? ==> outcome.err == Broken == r.end && |old(r.rest)| <= maxBytes as int
    ensures outcome == NoProgress ==> r.stalls < old(r.stalls) && |old(r.rest)| >= maxBytes as int
    // The answer is that there is no progress exactly when the reader made none at the end; otherwise, as always on a
    // reader that makes progress, it is one of three, each exactly when it is due.
    ensures maxBytes > 0 ==> (outcome == NoProgress <==> r.idle)
    ensures maxBytes > 0 && !r.idle ==>
            outcome == if |old(r.rest)| > maxBytes as int then TooLarge
                       else if r.end == EndOfFile then PassedOn(old(r.rest)) else ReadError(Broken)
    ensures maxBytes > 0 && old(r.stalls) == 0 ==>
            outcome == if |old(r.rest)| > maxBytes as int then TooLarge
                       else if r.end == EndOfFile then PassedOn(old(r.rest)) else ReadError(Broken)
  {
    if maxBytes <= 0 {
      assert r.rest == [] + r.rest;
      return BadLimit;
    }
    var data, left, err := ReadAllLimited(r, maxBytes);
    if err.Some? {
      return ReadError(err.value);
    }
    if left == 0 {
      ghost var middle := r.rest;
      var extra, readErr := r.Read(1);
      assert old(r.rest) == (data + extra) + r.rest;
      if |extra| > 0 {
        return TooLarge;
      }
      if readErr.Some? && readErr.value != EndOfFile {
        return ReadError(readErr.value);
      }
      if readErr.None? {
        return NoProgress;
      }
    }
    outcome := PassedOn(data);
  }
}
