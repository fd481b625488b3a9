/**
 * The /post-heavy load-simulation handler: read the body, decode it into a
 * `LoadTest` directive, reject a non-positive `block_count`, then build
 * `block_count` blocks of 10 MiB, add up all their bytes and answer
 * 200 "got it\n".
 *
 * Reading the request body and decoding JSON are library calls. The model takes
 * what they produce as inputs: a `ReadResult`, and a `parse` function giving
 * what the JSON decoder makes of a body.
 */
module Handler {
  import opened Wrappers
  import opened Blocks

  /** Size of every block, 10 MiB. */
  const BlockSize: nat := 10 * 1024 * 1024

  /** The bounds of a Go `int` on a 64-bit platform. */
  const GoIntMin: int := -0x8000_0000_0000_0000
  const GoIntMax: int := 0x7fff_ffff_ffff_ffff

  /** What reading the whole request body produced. */
  datatype ReadResult = ReadFailed | ReadOk(body: seq<Byte>)

  /**
   * What the JSON decoder makes of a body. `Rejected` stands for every syntax or
   * type error it reports. Otherwise the body is an `Object`, whose `blockCount`
   * is the integer given for a key equal to block_count up to case, or None when
   * there is no such key, its value is null, or the whole body is null. Keys
   * that match no field are ignored, so matching them is part of `parse`.
   */
  datatype JsonBody = Rejected | Object(blockCount: Option<int>)

  /** The decoded directive: its one field is a Go `int`. */
  datatype LoadTest = LoadTest(blockCount: int)

  /** The handler's outcome: one of its three rejections, or success with the checksum. */
  datatype Outcome = BadRead | BadJson | NonPositive | Ok(sum: int)

  /** What the validation steps decided: stop with a rejection, or go on with a count. */
  datatype Validated = Reject(error: Outcome) | Proceed(blockCount: int)

  /** The body of a response: a plain text, or a JSON object {"error": message}. */
  datatype Body = Text(text: string) | ErrorJson(message: string)

  datatype Response = Response(status: int, body: Body)

  /**
   * Decoding into a `LoadTest`: a field left out keeps Go's zero value 0, and
   * an integer a Go `int` cannot hold is a decoding error.
   */
  function Unmarshal(j: JsonBody): (r: Option<LoadTest>)
    ensures r.None? <==> j.Rejected? || (j.blockCount.Some? && !(GoIntMin <= j.blockCount.value <= GoIntMax))
    ensures j.Object? && j.blockCount.None? ==> r == Some(LoadTest(0))
    ensures r.Some? ==> GoIntMin <= r.value.blockCount <= GoIntMax
    ensures j.Object? && j.blockCount.Some? && r.Some? ==> r.value.blockCount == j.blockCount.value
  {
    match j
    case Rejected => None
    case Object(count) =>
      var n := count.GetOr(0);
      if GoIntMin <= n <= GoIntMax then Some(LoadTest(n)) else None
  }

  /**
   * The three checks, in the handler's order; the first that fails decides the
   * rejection and the later ones are not made.
   */
  function Validate(read: ReadResult, parse: seq<Byte> -> JsonBody): (v: Validated)
    ensures v == Reject(BadRead) <==> read.ReadFailed?
    ensures v == Reject(BadJson) <==> read.ReadOk? && Unmarshal(parse(read.body)).None?
    ensures v == Reject(NonPositive) <==>
      read.ReadOk? && Unmarshal(parse(read.body)).Some? && Unmarshal(parse(read.body)).value.blockCount <= 0
    ensures v.Proceed? <==>
      read.ReadOk? && Unmarshal(parse(read.body)).Some? && Unmarshal(parse(read.body)).value.blockCount > 0
    ensures v.Proceed? ==> v.blockCount == Unmarshal(parse(read.body)).value.blockCount
    ensures v.Reject? ==> !v.error.Ok?
  {
    match read
    case ReadFailed => Reject(BadRead)
    case ReadOk(body) =>
      match Unmarshal(parse(body))
      case None => Reject(BadJson)
      case Some(loadTest) =>
        if loadTest.blockCount <= 0 then Reject(NonPositive) else Proceed(loadTest.blockCount)
  }

  /** The response each outcome is answered with; the checksum itself is only logged. */
  function Respond(outcome: Outcome): (r: Response)
    ensures r.status == 200 <==> outcome.Ok?
    ensures r.status == 400 <==> !outcome.Ok?
    ensures outcome.Ok? ==> r.body == Text("got it\n")
    ensures outcome == BadRead ==> r.body == ErrorJson("unable to read body")
    ensures outcome == BadJson ==> r.body == ErrorJson("invalid JSON")
    ensures outcome == NonPositive ==> r.body == ErrorJson("block_count must be greater than 0")
  {
    match outcome
    case BadRead => Response(400, ErrorJson("unable to read body"))
    case BadJson => Response(400, ErrorJson("invalid JSON"))
    case NonPositive => Response(400, ErrorJson("block_count must be greater than 0"))
    case Ok(_) => Response(200, Text("got it\n"))
  }

  /**
   * The outcome the handler must reach: the rejection the checks decide, or the
   * sum of every byte of `blockCount` blocks of 10 MiB.
   */
  function Expected(read: ReadResult, parse: seq<Byte> -> JsonBody): (o: Outcome)
    ensures o.Ok? <==> Validate(read, parse).Proceed?
    ensures o.Ok? ==> o.sum == Validate(read, parse).blockCount * (BlockSize / 256) * PeriodSum
    ensures !o.Ok? ==> o == Validate(read, parse).error
  {
    match Validate(read, parse)
    case Reject(error) => error
    case Proceed(n) =>
      BlockSizeIsWholePeriods();
      BatchSum(n, BlockSize);
      Ok(SumBatch(Batch(n, BlockSize)))
  }

  /**
   * The handler. On a rejection it allocates nothing; otherwise it builds the
   * blocks, adds up their bytes and answers 200. Every allocation is taken to
   * succeed.
   */
  method PostHeavy(read: ReadResult, parse: seq<Byte> -> JsonBody)
    returns (outcome: Outcome, response: Response, blocks: seq<array<Byte>>)
    ensures outcome == Expected(read, parse)
    ensures response == Respond(outcome)
    ensures blocks != [] <==> outcome.Ok?
    ensures Validate(read, parse).Reject? ==> blocks == []
    ensures forall i :: 0 <= i < |blocks| ==> fresh(blocks[i])
    ensures forall i, i' :: 0 <= i < i' < |blocks| ==> blocks[i] != blocks[i']
    ensures Validate(read, parse).Proceed? ==>
      |blocks| == Validate(read, parse).blockCount &&
      (forall i :: 0 <= i < |blocks| ==> blocks[i].Length == BlockSize) &&
      View(blocks) == Batch(|blocks|, BlockSize)
  {
    match Validate(read, parse) {
      case Reject(error) =>
        outcome, blocks := error, [];
      case Proceed(blockCount) =>
        blocks := FillBlocks(blockCount, BlockSize);
        var sum := Checksum(blocks);
        outcome := Ok(sum);
    }
    response := Respond(outcome);
  }

  // ---------------------------------------------------------------------------
  // Properties of the handler
  // ---------------------------------------------------------------------------

  /** A failed read is reported whatever the body would have decoded to. */
  lemma ReadErrorFirst(parse: seq<Byte> -> JsonBody)
    ensures Expected(ReadFailed, parse) == BadRead
    ensures Respond(Expected(ReadFailed, parse)) == Response(400, ErrorJson("unable to read body"))
  {
  }

  /** A body the decoder rejects is reported as invalid JSON, before the count is looked at. */
  lemma JsonErrorBeforeCount(body: seq<Byte>, parse: seq<Byte> -> JsonBody)
    requires parse(body) == Rejected
    ensures Expected(ReadOk(body), parse) == BadJson
  {
  }

  /** A body that decodes but has no "block_count" gets the count 0 and is rejected as non-positive. */
  lemma MissingCountIsNonPositive(body: seq<Byte>, parse: seq<Byte> -> JsonBody)
    requires parse(body) == Object(None)
    ensures Expected(ReadOk(body), parse) == NonPositive
    ensures Respond(Expected(ReadOk(body), parse)) == Response(400, ErrorJson("block_count must be greater than 0"))
  {
  }

  /**
   * Every request that passes the checks is answered 200 "got it\n", and no
   * other is, provided the blocks for its count can be allocated.
   */
  lemma ValidRequestsSucceed(read: ReadResult, parse: seq<Byte> -> JsonBody)
    ensures Respond(Expected(read, parse)) == Response(200, Text("got it\n")) <==> Validate(read, parse).Proceed?
  {
  }

  /** The block size is a whole number of 256-byte periods: 40960 of them. */
  lemma BlockSizeIsWholePeriods()
    ensures BlockSize % 256 == 0 && BlockSize / 256 == 40960
  {
  }

  /** Example: a body asking for two blocks of 10 MiB gets the sum 2 * 40960 * 32640. */
  lemma TwoBlocks(body: seq<Byte>, parse: seq<Byte> -> JsonBody)
    requires parse(body) == Object(Some(2))
    ensures Expected(ReadOk(body), parse) == Ok(2 * 40960 * 32640)
  {
  }
}
