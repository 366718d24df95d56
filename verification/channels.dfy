/**
 * The control channel as the client sees it, the source of fresh command ids,
 * and the ways a client operation can end.
 */
module Channels {
  import opened Wrappers
  import opened Messages

  /**
   * A duplex channel: `input` holds what the successive `read_message` calls
   * return (None when a read yields no answer), `output` every message written.
   */
  class Channel {
    var input: seq<Option<Answer>>
    var output: seq<ConfigMessage>

    constructor (input: seq<Option<Answer>>)
      ensures this.input == input && output == []
    {
      this.input := input;
      output := [];
    }

    method Write(m: ConfigMessage)
      modifies this`output
      ensures output == old(output) + [m]
    {
      output := output + [m];
    }

    method Read() returns (r: Option<Answer>)
      requires input != []
      modifies this`input
      ensures r == old(input[0]) && input == old(input[1..])
    {
      r := input[0];
      input := input[1..];
    }
  }

  predicate Alphanumeric(c: char)
  {
    'a' <= c <= 'z' || 'A' <= c <= 'Z' || '0' <= c <= '9'
  }

  /** The random part of an id: six alphanumeric characters. */
  type Suffix = s: string | |s| == 6 && forall i | 0 <= i < |s| :: Alphanumeric(s[i])
    witness "AAAAAA"

  /** `generate_id`: "ID-" and the random part. */
  function FormatId(s: Suffix): string
  {
    "ID-" + s
  }

  /** `generate_tagged_id`: the tag, a dash and the random part. */
  function FormatTaggedId(tag: string, s: Suffix): string
  {
    tag + "-" + s
  }

  /** An id is nine characters, "ID-" then the six random ones, and the random part can be read back. */
  lemma IdShape(s: Suffix)
    ensures var id := FormatId(s);
      && |id| == 9 && id[..3] == "ID-" && id[3..] == s
      && forall i | 3 <= i < 9 :: Alphanumeric(id[i])
  {
  }

  /** A tagged id is the tag, a dash, then the six random characters, and both parts can be read back. */
  lemma TaggedIdShape(tag: string, s: Suffix)
    ensures var id := FormatTaggedId(tag, s);
      && |id| == |tag| + 7 && id[..|tag|] == tag && id[|tag|] == '-' && id[|tag| + 1..] == s
  {
  }

  /** Tagged ids are injective: equal ids have equal tags and equal random parts. */
  lemma TaggedIdInjective(tag: string, tag': string, s: Suffix, s': Suffix)
    requires FormatTaggedId(tag, s) == FormatTaggedId(tag', s')
    ensures tag == tag' && s == s'
  {
    TaggedIdShape(tag, s);
    TaggedIdShape(tag', s');
    assert |tag| == |tag'|;
  }

  /** Ids made from tags whose first letters differ can never collide. */
  lemma TaggedIdsDiffer(tag: string, tag': string, s: Suffix, s': Suffix)
    requires tag != [] && tag' != [] && tag[0] != tag'[0]
    ensures FormatTaggedId(tag, s) != FormatTaggedId(tag', s')
  {
    assert FormatTaggedId(tag, s)[0] == tag[0];
    assert FormatTaggedId(tag', s')[0] == tag'[0];
  }

  /**
   * The random generator behind the ids: `draw(k)` is the k-th random part it
   * produces, `drawn` how many it has produced so far.
   */
  class IdSource {
    const draw: nat -> Suffix
    var drawn: nat

    constructor (draw: nat -> Suffix)
      ensures this.draw == draw && drawn == 0
    {
      this.draw := draw;
      drawn := 0;
    }

    /** The id the k-th call of `generate_id` returns. */
    function Id(k: nat): string
    {
      FormatId(draw(k))
    }

    /** The id the k-th call of `generate_tagged_id(tag)` returns. */
    function TaggedId(tag: string, k: nat): string
    {
      FormatTaggedId(tag, draw(k))
    }

    method GenerateId() returns (id: string)
      modifies this`drawn
      ensures id == Id(old(drawn)) && drawn == old(drawn) + 1
    {
      id := FormatId(draw(drawn));
      drawn := drawn + 1;
    }

    method GenerateTaggedId(tag: string) returns (id: string)
      modifies this`drawn
      ensures id == TaggedId(tag, old(drawn)) && drawn == old(drawn) + 1
    {
      id := FormatTaggedId(tag, draw(drawn));
      drawn := drawn + 1;
    }
  }

  /** Why an operation gave up after printing a diagnostic. */
  datatype Reason =
    | NoAnswer          // read_message yielded nothing
    | InvalidId         // the answer carried an id other than the one sent
    | NotImmediate      // a Processing answer where a final one was required
    | ErrorAnswer       // the final answer was Error
    | MissingData       // an Ok answer without the expected payload
    | CertificateError  // loading or fingerprinting a certificate failed

  /** How a client operation ends. */
  datatype Outcome =
    | Done                // the operation completed
    | Pending             // the one answer read was Processing, and nothing more was done
    | Failed(why: Reason)  // a diagnostic was printed and the function returned
    | Exit(code: int)     // the process exited
    | Blocked             // the operation waits for an answer that never comes

  /** The answer a read yields is a final or interim answer to `id`, with status `s`. */
  predicate Answers(r: Option<Answer>, id: string, s: MessageStatus)
  {
    r.Some? && r.value.id == id && r.value.status == s
  }

  /** The answer a read yields belongs to some other command. */
  predicate Foreign(r: Option<Answer>, id: string)
  {
    r.Some? && r.value.id != id
  }

  /** What a single read leaves of the input: it consumes one answer, if there is one. */
  function AfterRead(input: seq<Option<Answer>>): (rest: seq<Option<Answer>>)
    ensures input != [] ==> |rest| == |input| - 1 && input == input[..1] + rest
    ensures input == [] ==> rest == []
  {
    if input == [] then [] else input[1..]
  }
}
