/** The resolver behind a WebTransport stream. It takes every message for one
    query, and a message is whatever the stream delivers in one chunk; so here
    the cutting of the stream decides the answers. */
module DnsStreams {
  import opened Wrappers
  import opened BigEndian
  import opened Sequences
  import opened Code
  import opened Commands
  import DnsChoice
  import DnsProxy
  import Text
  import WebTransport

  /** What a lookup finds for the host name in a query. */
  type Lookups = Bytes -> Option<seq<IpAddr>>

  function Queries(messages: seq<Bytes>, lookup: Lookups): (queries: seq<(Bytes, Option<seq<IpAddr>>)>)
    ensures |queries| == |messages|
  {
    seq(|messages|, i requires 0 <= i < |messages| => (messages[i], lookup(messages[i])))
  }

  /** The answers to what a resolver session is sent in these chunks. */
  function AnswersTo<S>(
    ip: IpText, service: Service<S>, w: WebTransport.Runner<S>, chunks: seq<Bytes>, lookup: Lookups): seq<Bytes>
  {
    var asked := WebTransport.Feed(ip, service, MAX_COMMAND_SIZE, w, chunks).w.forwarded;
    DnsProxy.Answers(Queries(if |w.forwarded| <= |asked| then asked[|w.forwarded|..] else [], lookup))
  }

  /** A session linked to the resolver, over a stream that it takes data from. */
  ghost predicate Linked<S>(w: WebTransport.Runner<S>) {
    w.lease.Some? && !w.relayUdp && w.accepting
  }

  lemma {:induction false} NoneEmptyStays(chunks: seq<Bytes>)
    requires [] !in chunks
    ensures WebTransport.NonEmpty(chunks) == chunks
  {
    if chunks != [] {
      NoneEmptyStays(chunks[1..]);
      assert [chunks[0]] + chunks[1..] == chunks;
    }
  }

  /** Every chunk is answered as a query of its own, in order. */
  lemma EachChunkIsAQuery<S>(
    ip: IpText, service: Service<S>, w: WebTransport.Runner<S>, chunks: seq<Bytes>, lookup: Lookups)
    requires Linked(w) && [] !in chunks
    ensures AnswersTo(ip, service, w, chunks, lookup) == DnsProxy.Answers(Queries(chunks, lookup))
  {
    WebTransport.ChunksAreMessages(ip, service, MAX_COMMAND_SIZE, w, chunks);
    NoneEmptyStays(chunks);
    assert (w.forwarded + chunks)[|w.forwarded|..] == chunks;
  }

  lemma OneAnswerEach<S>(
    ip: IpText, service: Service<S>, w: WebTransport.Runner<S>, chunks: seq<Bytes>, lookup: Lookups)
    requires Linked(w) && [] !in chunks
    ensures |AnswersTo(ip, service, w, chunks, lookup)| == |chunks|
  {
    EachChunkIsAQuery(ip, service, w, chunks, lookup);
  }

  lemma WholeQuery<S>(
    ip: IpText, service: Service<S>, w: WebTransport.Runner<S>, chunks: seq<Bytes>, query: Bytes, lookup: Lookups)
    requires Linked(w) && chunks == [query] && query != []
    ensures AnswersTo(ip, service, w, chunks, lookup) == [DnsProxy.Answer(query, lookup(query))]
  {
    EachChunkIsAQuery(ip, service, w, chunks, lookup);
  }

  lemma OneChunk(chunks: seq<Bytes>)
    requires |chunks| == 1
    ensures chunks == [Concat(chunks)]
  {
    assert chunks[1..] == [];
    assert Concat(chunks[1..]) == [] && chunks[0] + [] == chunks[0];
    assert Concat(chunks) == chunks[0];
    assert chunks == [chunks[0]];
  }

  /** A query gets its answer, and no other, exactly if it comes in one chunk. */
  lemma AnsweredIffWhole<S>(
    ip: IpText, service: Service<S>, w: WebTransport.Runner<S>, chunks: seq<Bytes>, query: Bytes, lookup: Lookups)
    requires Linked(w) && [] !in chunks && Concat(chunks) == query
    ensures AnswersTo(ip, service, w, chunks, lookup) == [DnsProxy.Answer(query, lookup(query))] <==> |chunks| == 1
  {
    if |chunks| == 1 {
      OneChunk(chunks);
      WholeQuery(ip, service, w, chunks, query, lookup);
    } else {
      OneAnswerEach(ip, service, w, chunks, lookup);
    }
  }

  const HOST_CHUNK: Bytes := ['h' as int]
  const TYPE_CHUNK: Bytes := [' ' as int, 'A' as int]

  lemma ExampleReads()
    ensures DnsProxy.IsQuery(HOST_CHUNK + TYPE_CHUNK, "h", "A")
    ensures forall host, kind :: !DnsProxy.IsQuery(HOST_CHUNK, host, kind)
    ensures forall host, kind :: !DnsProxy.IsQuery(TYPE_CHUNK, host, kind)
  {
    Text.TwoWords("h", "A", Text.WHITE_SPACE);
    assert Text.Spells(HOST_CHUNK + TYPE_CHUNK, "h" + (" " + "A"));
    forall host, kind ensures !DnsProxy.IsQuery(HOST_CHUNK, host, kind) {
      ShortIsBad(HOST_CHUNK, "h", host, kind);
    }
    forall host, kind ensures !DnsProxy.IsQuery(TYPE_CHUNK, host, kind) {
      ShortIsBad(TYPE_CHUNK, " A", host, kind);
    }
  }

  /** There is no room for two words and a blank in two characters. */
  lemma ShortIsBad(raw: Bytes, text: string, host: string, kind: string)
    requires |raw| <= 2
    ensures !DnsProxy.IsQuery(raw, host, kind)
  {
    if DnsProxy.IsQuery(raw, host, kind) {
      var text :| Text.Spells(raw, text) && Text.HasWords(text, [host, kind], Text.WHITE_SPACE);
      Text.TwoWordsNeedThree(text, host, kind, Text.WHITE_SPACE);
    }
  }

  lemma OneFound(address: Ipv4)
    ensures DnsChoice.GoodChoice("A", [V4(address)], [V4(address)])
  {
  }

  lemma WholeIsAnswered(address: Ipv4)
    ensures DnsProxy.DecodeReply(DnsProxy.Answer(HOST_CHUNK + TYPE_CHUNK, Some([V4(address)]))) == Some([V4(address)])
  {
    var found := [V4(address)];
    ExampleReads();
    DnsChoice.AnswerIsCorrect(HOST_CHUNK + TYPE_CHUNK, "h", "A", Some(found));
    OneFound(address);
    DnsChoice.GoodChoiceIsUnique("A", found, found,
      DnsProxy.DecodeReply(DnsProxy.Answer(HOST_CHUNK + TYPE_CHUNK, Some(found))).value);
  }

  /** The query "h A" gets the address found for h when it comes in one chunk;
      cut behind the h it is two bad queries, and each gets an empty list. */
  lemma CuttingDecidesAnswers<S>(
    ip: IpText, service: Service<S>, w: WebTransport.Runner<S>, address: Ipv4, lookup: Lookups)
    requires Linked(w) && lookup(HOST_CHUNK + TYPE_CHUNK) == Some([V4(address)])
    ensures var whole := AnswersTo(ip, service, w, [HOST_CHUNK + TYPE_CHUNK], lookup);
      |whole| == 1 && DnsProxy.DecodeReply(whole[0]) == Some([V4(address)])
    ensures var halves := AnswersTo(ip, service, w, [HOST_CHUNK, TYPE_CHUNK], lookup);
      |halves| == 2 && forall i | 0 <= i < 2 :: DnsProxy.DecodeReply(halves[i]) == Some([])
  {
    EachChunkIsAQuery(ip, service, w, [HOST_CHUNK + TYPE_CHUNK], lookup);
    EachChunkIsAQuery(ip, service, w, [HOST_CHUNK, TYPE_CHUNK], lookup);
    WholeIsAnswered(address);
    ExampleReads();
    DnsChoice.BadQueryGetsNothing(HOST_CHUNK, lookup(HOST_CHUNK));
    DnsChoice.BadQueryGetsNothing(TYPE_CHUNK, lookup(TYPE_CHUNK));
  }
}
