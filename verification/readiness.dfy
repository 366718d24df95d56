/**
 * The readiness model of lib/src/network/mod.rs: the sixteen `RequiredEvents`
 * values, one per pair (front interest, back interest), and the four questions
 * the event loop asks of them.
 */
module Readiness {

  /** What a session needs from one of its two sockets. */
  datatype Interest = Nothing | Read | Write | ReadWrite

  predicate Reads(i: Interest) { i == Read || i == ReadWrite }

  predicate Writes(i: Interest) { i == Write || i == ReadWrite }

  datatype RequiredEvents =
    | FrontReadBackNone
    | FrontWriteBackNone
    | FrontReadWriteBackNone
    | FrontNoneBackNone
    | FrontReadBackRead
    | FrontWriteBackRead
    | FrontReadWriteBackRead
    | FrontNoneBackRead
    | FrontReadBackWrite
    | FrontWriteBackWrite
    | FrontReadWriteBackWrite
    | FrontNoneBackWrite
    | FrontReadBackReadWrite
    | FrontWriteBackReadWrite
    | FrontReadWriteBackReadWrite
    | FrontNoneBackReadWrite

  /** The front component a variant's name spells out. */
  function Front(e: RequiredEvents): Interest
  {
    match e
    case FrontReadBackNone | FrontReadBackRead | FrontReadBackWrite | FrontReadBackReadWrite => Read
    case FrontWriteBackNone | FrontWriteBackRead | FrontWriteBackWrite | FrontWriteBackReadWrite => Write
    case FrontReadWriteBackNone | FrontReadWriteBackRead | FrontReadWriteBackWrite | FrontReadWriteBackReadWrite => ReadWrite
    case FrontNoneBackNone | FrontNoneBackRead | FrontNoneBackWrite | FrontNoneBackReadWrite => Nothing
  }

  /** The back component a variant's name spells out. */
  function Back(e: RequiredEvents): Interest
  {
    match e
    case FrontReadBackNone | FrontWriteBackNone | FrontReadWriteBackNone | FrontNoneBackNone => Nothing
    case FrontReadBackRead | FrontWriteBackRead | FrontReadWriteBackRead | FrontNoneBackRead => Read
    case FrontReadBackWrite | FrontWriteBackWrite | FrontReadWriteBackWrite | FrontNoneBackWrite => Write
    case FrontReadBackReadWrite | FrontWriteBackReadWrite | FrontReadWriteBackReadWrite | FrontNoneBackReadWrite => ReadWrite
  }

  /** The variant for a pair of interests: the inverse of (Front, Back). */
  function Compose(front: Interest, back: Interest): (e: RequiredEvents)
    ensures Front(e) == front && Back(e) == back
  {
    match (front, back)
    case (Read, Nothing) => FrontReadBackNone
    case (Write, Nothing) => FrontWriteBackNone
    case (ReadWrite, Nothing) => FrontReadWriteBackNone
    case (Nothing, Nothing) => FrontNoneBackNone
    case (Read, Read) => FrontReadBackRead
    case (Write, Read) => FrontWriteBackRead
    case (ReadWrite, Read) => FrontReadWriteBackRead
    case (Nothing, Read) => FrontNoneBackRead
    case (Read, Write) => FrontReadBackWrite
    case (Write, Write) => FrontWriteBackWrite
    case (ReadWrite, Write) => FrontReadWriteBackWrite
    case (Nothing, Write) => FrontNoneBackWrite
    case (Read, ReadWrite) => FrontReadBackReadWrite
    case (Write, ReadWrite) => FrontWriteBackReadWrite
    case (ReadWrite, ReadWrite) => FrontReadWriteBackReadWrite
    case (Nothing, ReadWrite) => FrontNoneBackReadWrite
  }

  /** Compose is onto: together with its ensures, RequiredEvents is in bijection with pairs of interests. */
  lemma ComposeOfParts(e: RequiredEvents)
    ensures Compose(Front(e), Back(e)) == e
  {
  }

  function FrontReadable(e: RequiredEvents): (r: bool)
    ensures r <==> Reads(Front(e))
  {
    match e
    case FrontReadBackNone
      | FrontReadWriteBackNone
      | FrontReadBackRead
      | FrontReadWriteBackRead
      | FrontReadBackWrite
      | FrontReadWriteBackWrite
      | FrontReadBackReadWrite
      | FrontReadWriteBackReadWrite => true
    case _ => false
  }

  function FrontWritable(e: RequiredEvents): (r: bool)
    ensures r <==> Writes(Front(e))
  {
    match e
    case FrontWriteBackNone
      | FrontReadWriteBackNone
      | FrontWriteBackRead
      | FrontReadWriteBackRead
      | FrontWriteBackWrite
      | FrontReadWriteBackWrite
      | FrontWriteBackReadWrite
      | FrontReadWriteBackReadWrite => true
    case _ => false
  }

  function BackReadable(e: RequiredEvents): (r: bool)
    ensures r <==> Reads(Back(e))
  {
    match e
    case FrontReadBackRead
      | FrontWriteBackRead
      | FrontReadWriteBackRead
      | FrontNoneBackRead
      | FrontReadBackReadWrite
      | FrontWriteBackReadWrite
      | FrontReadWriteBackReadWrite
      | FrontNoneBackReadWrite => true
    case _ => false
  }

  function BackWritable(e: RequiredEvents): (r: bool)
    ensures r <==> Writes(Back(e))
  {
    match e
    case FrontReadBackWrite
      | FrontWriteBackWrite
      | FrontReadWriteBackWrite
      | FrontNoneBackWrite
      | FrontReadBackReadWrite
      | FrontWriteBackReadWrite
      | FrontReadWriteBackReadWrite
      | FrontNoneBackReadWrite => true
    case _ => false
  }

  /** The four facets of a variant, in the order front read, front write, back read, back write. */
  function Facets(e: RequiredEvents): (bool, bool, bool, bool)
  {
    (FrontReadable(e), FrontWritable(e), BackReadable(e), BackWritable(e))
  }

  /** Each facet reads one component only: changing the other one never changes it. */
  lemma FacetsIgnoreOtherSide(f: Interest, b: Interest, f': Interest, b': Interest)
    ensures FrontReadable(Compose(f, b)) == FrontReadable(Compose(f, b'))
    ensures FrontWritable(Compose(f, b)) == FrontWritable(Compose(f, b'))
    ensures BackReadable(Compose(f, b)) == BackReadable(Compose(f', b))
    ensures BackWritable(Compose(f, b)) == BackWritable(Compose(f', b))
  {
  }

  /** The four facets are a lossless encoding: no two variants answer all four questions alike. */
  lemma FacetsDetermineEvents(e: RequiredEvents, e': RequiredEvents)
    requires Facets(e) == Facets(e')
    ensures e == e'
  {
    InterestFromFacets(Front(e), Front(e'));
    InterestFromFacets(Back(e), Back(e'));
    ComposeOfParts(e);
    ComposeOfParts(e');
  }

  lemma InterestFromFacets(i: Interest, i': Interest)
    requires Reads(i) == Reads(i') && Writes(i) == Writes(i')
    ensures i == i'
  {
  }

  /** The hand-built truth table: one row per variant, columns as in Facets. */
  lemma TruthTable()
    ensures Facets(FrontReadBackNone) == (true, false, false, false)
    ensures Facets(FrontWriteBackNone) == (false, true, false, false)
    ensures Facets(FrontReadWriteBackNone) == (true, true, false, false)
    ensures Facets(FrontNoneBackNone) == (false, false, false, false)
    ensures Facets(FrontReadBackRead) == (true, false, true, false)
    ensures Facets(FrontWriteBackRead) == (false, true, true, false)
    ensures Facets(FrontReadWriteBackRead) == (true, true, true, false)
    ensures Facets(FrontNoneBackRead) == (false, false, true, false)
    ensures Facets(FrontReadBackWrite) == (true, false, false, true)
    ensures Facets(FrontWriteBackWrite) == (false, true, false, true)
    ensures Facets(FrontReadWriteBackWrite) == (true, true, false, true)
    ensures Facets(FrontNoneBackWrite) == (false, false, false, true)
    ensures Facets(FrontReadBackReadWrite) == (true, false, true, true)
    ensures Facets(FrontWriteBackReadWrite) == (false, true, true, true)
    ensures Facets(FrontReadWriteBackReadWrite) == (true, true, true, true)
    ensures Facets(FrontNoneBackReadWrite) == (false, false, true, true)
  {
  }
}
