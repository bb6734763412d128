/** The `connect!` macro of crates/macros/src/lib.rs: its grammar and its translation to declarations and edges. */
module Connect {
  import opened Wrappers

  /** The tokens the grammar looks at; a bracket group holds an index or something else. */
  datatype Token =
    | Ident(name: string) | Dot | Gt | Pipe | Lt | Semi | Comma
    | Bracket(index: Option<nat>)

  /** The parse stream. */
  datatype Tokens = End | More(head: Token, tail: Tokens)

  function Len(ts: Tokens): nat {
    match ts
    case End => 0
    case More(_, tail) => 1 + Len(tail)
  }

  datatype Port = Port(name: string, index: Option<nat>)

  datatype Source = Source(block: string, output: Option<Port>)

  datatype Endpoint = Endpoint(block: string, input: Option<Port>, output: Option<Port>)

  datatype ConnectionType = Stream | Message | Circuit

  datatype Connection = Connection(link: ConnectionType, dst: Endpoint)

  datatype ConnectionString = ConnectionString(source: Source, connections: seq<Connection>)

  datatype ConnectInput = ConnectInput(flowgraph: string, strings: seq<ConnectionString>)

  // ---- parsing

  datatype Parsed<A> = Parsed(value: A, rest: Tokens) | Failed

  function ParsePort(ts: Tokens): (r: Parsed<Port>)
    ensures r.Parsed? ==> Len(r.rest) < Len(ts)
  {
    match ts
    case More(Ident(name), More(Bracket(index), rest)) =>
      if index.Some? then Parsed(Port(name, index), rest) else Failed
    case More(Ident(name), rest) => Parsed(Port(name, None), rest)
    case _ => Failed
  }

  function ParseSource(ts: Tokens): (r: Parsed<Source>)
    ensures r.Parsed? ==> Len(r.rest) < Len(ts)
  {
    match ts
    case More(Ident(block), More(Dot, rest)) =>
      (match ParsePort(rest)
       case Failed => Failed
       case Parsed(port, rest') => Parsed(Source(block, Some(port)), rest'))
    case More(Ident(block), rest) => Parsed(Source(block, None), rest)
    case _ => Failed
  }

  /** What follows the first port of an endpoint. */
  function ParseAfterPort(first: Port, ts: Tokens): (r: Parsed<Endpoint>)
    ensures r.Parsed? ==> Len(r.rest) <= Len(ts)
  {
    match ts
    case More(Dot, More(Ident(block), More(Dot, rest))) =>
      assert Len(ts) > Len(ts.tail) > Len(ts.tail.tail) > Len(rest);
      (match ParsePort(rest)
       case Failed => Failed
       case Parsed(second, rest') => Parsed(Endpoint(block, Some(first), Some(second)), rest'))
    case More(Dot, More(Ident(block), rest)) => Parsed(Endpoint(block, Some(first), None), rest)
    case More(Dot, _) => Failed
    case _ => if first.index.None? then Parsed(Endpoint(first.name, None, None), ts) else Failed
  }

  function ParseEndpoint(ts: Tokens): (r: Parsed<Endpoint>)
    ensures r.Parsed? ==> Len(r.rest) < Len(ts)
  {
    match ParsePort(ts)
    case Failed => Failed
    case Parsed(first, rest) => ParseAfterPort(first, rest)
  }

  function ParseConnectionType(ts: Tokens): Parsed<ConnectionType> {
    match ts
    case More(Gt, rest) => Parsed(Stream, rest)
    case More(Pipe, rest) => Parsed(Message, rest)
    case More(Lt, rest) => Parsed(Circuit, rest)
    case _ => Failed
  }

  /** The links of a chain: as many as there are connection types; a link without an endpoint is an error. */
  function ParseConnections(ts: Tokens): (r: Parsed<seq<Connection>>)
    ensures r.Parsed? ==> Len(r.rest) <= Len(ts)
    decreases Len(ts)
  {
    match ParseConnectionType(ts)
    case Failed => Parsed([], ts)
    case Parsed(link, rest) =>
      match ParseEndpoint(rest)
      case Failed => Failed
      case Parsed(dst, rest') =>
        match ParseConnections(rest')
        case Failed => Failed
        case Parsed(more, rest'') => Parsed([Connection(link, dst)] + more, rest'')
  }

  function ParseString(ts: Tokens): (r: Parsed<ConnectionString>)
    ensures r.Parsed? ==> Len(r.rest) < Len(ts)
  {
    match ParseSource(ts)
    case Failed => Failed
    case Parsed(source, rest) =>
      match ParseConnections(rest)
      case Failed => Failed
      case Parsed(connections, rest') => Parsed(ConnectionString(source, connections), rest')
  }

  /** `Punctuated::parse_terminated` over semicolons: to the end of the input, with or without a last one. */
  function ParseStrings(ts: Tokens): Option<seq<ConnectionString>>
    decreases Len(ts)
  {
    if ts.End? then Some([])
    else
      match ParseString(ts)
      case Failed => None
      case Parsed(first, End) => Some([first])
      case Parsed(first, More(Semi, rest)) =>
        (match ParseStrings(rest)
         case None => None
         case Some(more) => Some([first] + more))
      case Parsed(_, _) => None
  }

  function ParseInput(ts: Tokens): Option<ConnectInput> {
    match ts
    case More(Ident(flowgraph), More(Comma, rest)) =>
      (match ParseStrings(rest)
       case None => None
       case Some(strings) => Some(ConnectInput(flowgraph, strings)))
    case _ => None
  }

  /** A parse with what was read before it. */
  function After(before: seq<Connection>, r: Parsed<seq<Connection>>): Parsed<seq<Connection>> {
    match r
    case Failed => Failed
    case Parsed(more, rest) => Parsed(before + more, rest)
  }

  lemma AfterNext(before: seq<Connection>, ts: Tokens, link: ConnectionType, rest: Tokens, dst: Endpoint, rest': Tokens)
    requires ParseConnectionType(ts) == Parsed(link, rest) && ParseEndpoint(rest) == Parsed(dst, rest')
    ensures After(before, ParseConnections(ts)) == After(before + [Connection(link, dst)], ParseConnections(rest'))
  {
    var r := ParseConnections(rest');
    if r.Parsed? {
      assert before + ([Connection(link, dst)] + r.value) == (before + [Connection(link, dst)]) + r.value;
    }
  }

  /** The loop of `ConnectionString::parse`. */
  method ParseConnectionsLoop(ts: Tokens) returns (r: Parsed<seq<Connection>>)
    ensures r == ParseConnections(ts)
  {
    var connections: seq<Connection> := [];
    var input := ts;
    var ct := ParseConnectionType(input);
    assert After([], ParseConnections(ts)) == ParseConnections(ts) by {
      var r := ParseConnections(ts);
      assert r.Parsed? ==> [] + r.value == r.value;
    }
    while ct.Parsed?
      invariant ct == ParseConnectionType(input)
      invariant ParseConnections(ts) == After(connections, ParseConnections(input))
      decreases Len(input)
    {
      var dest := ParseEndpoint(ct.rest);
      if dest.Failed? {
        return Failed;
      }
      AfterNext(connections, input, ct.value, ct.rest, dest.value, dest.rest);
      connections := connections + [Connection(ct.value, dest.value)];
      input := dest.rest;
      ct := ParseConnectionType(input);
    }
    assert connections + [] == connections;
    r := Parsed(connections, input);
  }

  // ---- printing, in front of what follows

  function PrintPort(p: Port, rest: Tokens): Tokens {
    More(Ident(p.name), if p.index.Some? then More(Bracket(p.index), rest) else rest)
  }

  function PrintOutput(p: Option<Port>, rest: Tokens): Tokens {
    if p.Some? then More(Dot, PrintPort(p.value, rest)) else rest
  }

  function PrintSource(s: Source, rest: Tokens): Tokens {
    More(Ident(s.block), PrintOutput(s.output, rest))
  }

  function PrintEndpoint(e: Endpoint, rest: Tokens): Tokens {
    var block := More(Ident(e.block), PrintOutput(e.output, rest));
    if e.input.Some? then PrintPort(e.input.value, More(Dot, block)) else block
  }

  function PrintLink(c: ConnectionType): Token {
    match c
    case Stream => Gt
    case Message => Pipe
    case Circuit => Lt
  }

  function PrintConnections(cs: seq<Connection>, rest: Tokens): Tokens {
    if cs == [] then rest
    else More(PrintLink(cs[0].link), PrintEndpoint(cs[0].dst, PrintConnections(cs[1..], rest)))
  }

  function PrintString(s: ConnectionString, rest: Tokens): Tokens {
    PrintSource(s.source, PrintConnections(s.connections, rest))
  }

  /** The strings with semicolons between them, `last` saying whether another one ends them. */
  function PrintStrings(ss: seq<ConnectionString>, last: bool): Tokens {
    if ss == [] then End
    else
      PrintString(ss[0],
                  if |ss| > 1 then More(Semi, PrintStrings(ss[1..], last)) else if last then More(Semi, End) else End)
  }

  function PrintInput(i: ConnectInput, last: bool): Tokens {
    More(Ident(i.flowgraph), More(Comma, PrintStrings(i.strings, last)))
  }

  /** What the notation can express: an output port needs an input port before the block. */
  predicate WellFormedEndpoint(e: Endpoint) {
    (e.output.Some? ==> e.input.Some?)
  }

  predicate WellFormedConnections(cs: seq<Connection>) {
    forall k :: 0 <= k < |cs| ==> WellFormedEndpoint(cs[k].dst)
  }

  predicate WellFormed(i: ConnectInput) {
    forall k :: 0 <= k < |i.strings| ==> WellFormedConnections(i.strings[k].connections)
  }

  // ---- parsing inverts printing

  /** Where an endpoint may end: no token follows that would belong to it. */
  predicate Ends(rest: Tokens) {
    rest.More? ==> !rest.head.Dot? && !rest.head.Bracket?
  }

  /** Where a chain may end. */
  predicate EndsChain(rest: Tokens) {
    rest.More? ==> rest.head.Semi?
  }

  lemma SourceRoundTrip(s: Source, rest: Tokens)
    requires Ends(rest)
    ensures ParseSource(PrintSource(s, rest)) == Parsed(s, rest)
  {
  }

  lemma EndpointRoundTrip(e: Endpoint, rest: Tokens)
    requires WellFormedEndpoint(e) && Ends(rest)
    ensures ParseEndpoint(PrintEndpoint(e, rest)) == Parsed(e, rest)
  {
  }

  lemma {:induction false} ConnectionsRoundTrip(cs: seq<Connection>, rest: Tokens)
    requires EndsChain(rest) && WellFormedConnections(cs)
    ensures ParseConnections(PrintConnections(cs, rest)) == Parsed(cs, rest)
    ensures Ends(PrintConnections(cs, rest))
  {
    if cs != [] {
      var more := PrintConnections(cs[1..], rest);
      ConnectionsRoundTrip(cs[1..], rest);
      ConnectionRoundTrip(cs[0], more);
      assert cs == [cs[0]] + cs[1..];
    }
  }

  lemma ConnectionRoundTrip(c: Connection, rest: Tokens)
    requires WellFormedEndpoint(c.dst) && Ends(rest)
    ensures var ts := More(PrintLink(c.link), PrintEndpoint(c.dst, rest));
            && ParseConnectionType(ts) == Parsed(c.link, ts.tail) && ParseEndpoint(ts.tail) == Parsed(c.dst, rest)
            && Ends(ts)
  {
    EndpointRoundTrip(c.dst, rest);
  }

  lemma StringRoundTrip(s: ConnectionString, rest: Tokens)
    requires WellFormedConnections(s.connections) && EndsChain(rest)
    ensures ParseString(PrintString(s, rest)) == Parsed(s, rest)
  {
    ConnectionsRoundTrip(s.connections, rest);
    SourceRoundTrip(s.source, PrintConnections(s.connections, rest));
  }

  lemma {:induction false} StringsRoundTrip(ss: seq<ConnectionString>, last: bool)
    requires forall k :: 0 <= k < |ss| ==> WellFormedConnections(ss[k].connections)
    ensures ParseStrings(PrintStrings(ss, last)) == Some(ss)
  {
    if ss != [] {
      var rest := if |ss| > 1 then More(Semi, PrintStrings(ss[1..], last)) else if last then More(Semi, End) else End;
      StringRoundTrip(ss[0], rest);
      assert PrintStrings(ss, last) == PrintString(ss[0], rest) != End;
      assert ss == [ss[0]] + ss[1..];
      if |ss| > 1 {
        StringsRoundTrip(ss[1..], last);
      } else {
        assert ParseStrings(End) == Some([]) && [ss[0]] + [] == [ss[0]] == ss;
      }
    }
  }

  /** Every list of connections that the notation can express is read back as it was written. */
  lemma InputRoundTrip(i: ConnectInput, last: bool)
    requires WellFormed(i)
    ensures ParseInput(PrintInput(i, last)) == Some(i)
  {
    StringsRoundTrip(i.strings, last);
  }

  // ---- and nothing else is accepted

  lemma PortIsPrinted(ts: Tokens)
    requires ParsePort(ts).Parsed?
    ensures var r := ParsePort(ts); ts == PrintPort(r.value, r.rest)
  {
  }

  lemma SourceIsPrinted(ts: Tokens)
    requires ParseSource(ts).Parsed?
    ensures var r := ParseSource(ts); ts == PrintSource(r.value, r.rest)
  {
    if ts.tail.More? && ts.tail.head.Dot? {
      PortIsPrinted(ts.tail.tail);
    }
  }

  lemma AfterPortIsPrinted(first: Port, ts: Tokens)
    requires ParseAfterPort(first, ts).Parsed?
    ensures var r := ParseAfterPort(first, ts);
            PrintPort(first, ts) == PrintEndpoint(r.value, r.rest)
            && WellFormedEndpoint(r.value)
  {
    if ts.More? && ts.head.Dot? {
      var rest := ts.tail.tail;
      if rest.More? && rest.head.Dot? {
        PortIsPrinted(rest.tail);
      }
    }
  }

  lemma EndpointIsPrinted(ts: Tokens)
    requires ParseEndpoint(ts).Parsed?
    ensures var r := ParseEndpoint(ts); ts == PrintEndpoint(r.value, r.rest) && WellFormedEndpoint(r.value)
  {
    PortIsPrinted(ts);
    AfterPortIsPrinted(ParsePort(ts).value, ParsePort(ts).rest);
  }

  lemma {:induction false} ConnectionsArePrinted(ts: Tokens)
    requires ParseConnections(ts).Parsed?
    ensures var r := ParseConnections(ts); ts == PrintConnections(r.value, r.rest) && WellFormedConnections(r.value)
    decreases Len(ts)
  {
    var link := ParseConnectionType(ts);
    if link.Parsed? {
      EndpointIsPrinted(link.rest);
      var dst := ParseEndpoint(link.rest);
      ConnectionsArePrinted(dst.rest);
      assert ParseConnections(ts).value[1..] == ParseConnections(dst.rest).value;
    }
  }

  lemma StringIsPrinted(ts: Tokens)
    requires ParseString(ts).Parsed?
    ensures var r := ParseString(ts); ts == PrintString(r.value, r.rest) && WellFormedConnections(r.value.connections)
  {
    SourceIsPrinted(ts);
    ConnectionsArePrinted(ParseSource(ts).rest);
  }

  /** The notation spelled out, with every port and index, `fg, a.o[i] > n[j].b.m[k]`, and with none, `fg, a > b`: the
      port in front of a block is its input, the one behind it its output. */
  lemma Spelling(fg: string, a: string, o: string, i: nat, n: string, j: nat, b: string, m: string, k: nat,
                 token: Token, link: ConnectionType)
    requires (token == Gt && link == Stream) || (token == Pipe && link == Message) || (token == Lt && link == Circuit)
    ensures var dst := More(Ident(n), More(Bracket(Some(j)), More(Dot, More(Ident(b), More(Dot, More(Ident(m),
                       More(Bracket(Some(k)), End)))))));
            var src := More(Ident(a), More(Dot, More(Ident(o), More(Bracket(Some(i)), More(token, dst)))));
            var endpoint := Endpoint(b, Some(Port(n, Some(j))), Some(Port(m, Some(k))));
            ParseInput(More(Ident(fg), More(Comma, src))) ==
            Some(ConnectInput(fg, [ConnectionString(Source(a, Some(Port(o, Some(i)))), [Connection(link, endpoint)])]))
    ensures var ts := More(Ident(fg), More(Comma, More(Ident(a), More(token, More(Ident(b), End)))));
            ParseInput(ts) ==
            Some(ConnectInput(fg, [ConnectionString(Source(a, None), [Connection(link, Endpoint(b, None, None))])]))
  {
    var first, second := Port(n, Some(j)), Port(m, Some(k));
    var block := More(Dot, More(Ident(b), More(Dot, More(Ident(m), More(Bracket(Some(k)), End)))));
    assert ParseAfterPort(first, block) == Parsed(Endpoint(b, Some(first), Some(second)), End);
    var dst := More(token, More(Ident(n), More(Bracket(Some(j)), block)));
    OneLink(More(Ident(a), More(Dot, More(Ident(o), More(Bracket(Some(i)), dst)))), Source(a, Some(Port(o, Some(i)))),
            link, Endpoint(b, Some(first), Some(second)));
    OneLink(More(Ident(a), More(token, More(Ident(b), End))), Source(a, None), link, Endpoint(b, None, None));
  }

  lemma OneLink(ts: Tokens, a: Source, link: ConnectionType, dst: Endpoint)
    requires ParseSource(ts).Parsed? && ParseConnectionType(ParseSource(ts).rest).Parsed?
    requires ParseSource(ts).value == a && ParseConnectionType(ParseSource(ts).rest).value == link
    requires ParseEndpoint(ParseConnectionType(ParseSource(ts).rest).rest) == Parsed(dst, End)
    ensures ParseStrings(ts) == Some([ConnectionString(a, [Connection(link, dst)])])
  {
    assert ParseConnections(End) == Parsed([], End);
    assert [Connection(link, dst)] + [] == [Connection(link, dst)];
  }

  lemma {:induction false} StringsArePrinted(ts: Tokens) returns (last: bool)
    requires ParseStrings(ts).Some?
    ensures var ss := ParseStrings(ts).value;
            ts == PrintStrings(ss, last) && forall k :: 0 <= k < |ss| ==> WellFormedConnections(ss[k].connections)
    decreases Len(ts)
  {
    last := false;
    if ts != End {
      StringIsPrinted(ts);
      var first := ParseString(ts);
      if first.rest != End {
        last := StringsArePrinted(first.rest.tail);
        var more := ParseStrings(first.rest.tail).value;
        assert ([first.value] + more)[1..] == more;
        if more == [] {
          last := true;
        }
      }
    }
  }

  /** The macro accepts exactly the printed forms of well-formed connection lists. */
  lemma AcceptedIffPrinted(ts: Tokens)
    ensures ParseInput(ts).Some? <==> exists i, last :: WellFormed(i) && ts == PrintInput(i, last)
  {
    if ParseInput(ts).Some? {
      var i := ParseInput(ts).value;
      var last := StringsArePrinted(ts.tail.tail);
      assert WellFormed(i) && ts == PrintInput(i, last);
    }
    if exists i, last :: WellFormed(i) && ts == PrintInput(i, last) {
      var i, last :| WellFormed(i) && ts == PrintInput(i, last);
      InputRoundTrip(i, last);
    }
  }

  // ---- compiling

  /** A port as the generated code names it. */
  datatype PortRef = PortRef(name: string, index: Option<nat>)

  datatype Edge = Edge(link: ConnectionType, srcBlock: string, srcPort: PortRef, dstBlock: string, dstPort: PortRef)

  /** Messages know ports by name only; the defaults differ between messages and the two kinds of streams. */
  function Resolve(link: ConnectionType, p: Option<Port>, streamDefault: string, messageDefault: string): PortRef {
    match p
    case Some(port) => PortRef(port.name, if link.Message? then None else port.index)
    case None => PortRef(if link.Message? then messageDefault else streamDefault, None)
  }

  /** The block and the output that link k of a chain starts from. */
  function Origin(s: ConnectionString, k: nat): (string, Option<Port>)
    requires k <= |s.connections|
  {
    if k == 0 then (s.source.block, s.source.output)
    else (s.connections[k - 1].dst.block, s.connections[k - 1].dst.output)
  }

  /** Link k of a chain. */
  function EdgeAt(s: ConnectionString, k: nat): Edge
    requires k < |s.connections|
  {
    var (block, output) := Origin(s, k);
    var c := s.connections[k];
    Edge(c.link, block, Resolve(c.link, output, "output", "out"), c.dst.block,
         Resolve(c.link, c.dst.input, "input", "in"))
  }

  /** One edge for each link, in order. */
  function EdgesOf(s: ConnectionString): (es: seq<Edge>)
    ensures |es| == |s.connections|
  {
    seq(|s.connections|, k requires 0 <= k < |s.connections| => EdgeAt(s, k))
  }

  function AllEdges(ss: seq<ConnectionString>): seq<Edge> {
    if ss == [] then [] else AllEdges(ss[..|ss| - 1]) + EdgesOf(ss[|ss| - 1])
  }

  /** What link k of a chain asks for, field by field: its kind; from the block before it, at that block's output, to
      the block behind it, at that block's input. A port has the name written, or else the default for the kind, and
      the index written, but none in a message link. */
  predicate Joins(e: Edge, s: ConnectionString, k: nat)
    requires k < |s.connections|
  {
    var c := s.connections[k];
    var output := if k == 0 then s.source.output else s.connections[k - 1].dst.output;
    && e.link == c.link && e.dstBlock == c.dst.block
    && e.srcBlock == (if k == 0 then s.source.block else s.connections[k - 1].dst.block)
    && (output.Some? ==> e.srcPort.name == output.value.name)
    && (c.dst.input.Some? ==> e.dstPort.name == c.dst.input.value.name)
    && (output.None? ==> e.srcPort == PortRef(if c.link.Message? then "out" else "output", None))
    && (c.dst.input.None? ==> e.dstPort == PortRef(if c.link.Message? then "in" else "input", None))
    && (output.Some? && !c.link.Message? ==> e.srcPort.index == output.value.index)
    && (c.dst.input.Some? && !c.link.Message? ==> e.dstPort.index == c.dst.input.value.index)
    && (c.link.Message? ==> e.srcPort.index == e.dstPort.index == None)
  }

  lemma EdgeJoins(s: ConnectionString, k: nat)
    requires k < |s.connections|
    ensures EdgesOf(s)[k] == EdgeAt(s, k) && Joins(EdgeAt(s, k), s, k)
  {
  }

  /** The links of all chains. */
  function Links(ss: seq<ConnectionString>): nat {
    if ss == [] then 0 else Links(ss[..|ss| - 1]) + |ss[|ss| - 1].connections|
  }

  /** Where link k of chain n is in the whole list. */
  function Place(ss: seq<ConnectionString>, n: nat, k: nat): nat
    requires n < |ss|
  {
    Links(ss[..n]) + k
  }

  lemma {:induction false} AllEdgesAt(ss: seq<ConnectionString>, n: nat, k: nat)
    requires n < |ss| && k < |ss[n].connections|
    ensures Place(ss, n, k) < Links(ss) == |AllEdges(ss)|
    ensures AllEdges(ss)[Place(ss, n, k)] == EdgesOf(ss[n])[k]
  {
    var last := |ss| - 1;
    AllEdgesCount(ss);
    AllEdgesCount(ss[..last]);
    if n < last {
      AllEdgesAt(ss[..last], n, k);
      assert ss[..last][..n] == ss[..n] && ss[..last][n] == ss[n];
    }
  }

  lemma {:induction false} AllEdgesCount(ss: seq<ConnectionString>)
    ensures |AllEdges(ss)| == Links(ss)
  {
    if ss != [] {
      AllEdgesCount(ss[..|ss| - 1]);
    }
  }

  /** The blocks a chain mentions. */
  function BlocksOf(s: ConnectionString): set<string> {
    {s.source.block} + set k | 0 <= k < |s.connections| :: s.connections[k].dst.block
  }

  function Mentioned(ss: seq<ConnectionString>): set<string> {
    if ss == [] then {} else Mentioned(ss[..|ss| - 1]) + BlocksOf(ss[|ss| - 1])
  }

  /** A block is mentioned as the source of a chain or as the block of an endpoint. */
  lemma {:induction false} MentionedIff(ss: seq<ConnectionString>, y: string)
    ensures y in Mentioned(ss) <==>
            exists n :: 0 <= n < |ss| && (ss[n].source.block == y
                                          || exists k :: 0 <= k < |ss[n].connections|
                                                         && ss[n].connections[k].dst.block == y)
  {
    if ss != [] {
      var last := |ss| - 1;
      MentionedIff(ss[..last], y);
      assert forall n :: 0 <= n < last ==> ss[..last][n] == ss[n];
      assert y in BlocksOf(ss[last]) <==>
             ss[last].source.block == y
             || exists k :: 0 <= k < |ss[last].connections| && ss[last].connections[k].dst.block == y;
    }
  }

  // ---- sorted declarations

  /** The order of strings. */
  predicate Before(a: string, b: string) {
    if a == "" then true
    else if b == "" then false
    else a[0] < b[0] || (a[0] == b[0] && Before(a[1..], b[1..]))
  }

  /** It is the order of a dictionary: a start of b comes first, and else the first character that differs decides. */
  lemma {:induction false} BeforeIsLexicographic(a: string, b: string) returns (k: nat)
    ensures k <= |a| && k <= |b| && a[..k] == b[..k]
    ensures k < |a| && k < |b| ==> a[k] != b[k]
    ensures Before(a, b) <==> k == |a| || (k < |b| && a[k] < b[k])
  {
    k := 0;
    if a != "" && b != "" && a[0] == b[0] {
      k := BeforeIsLexicographic(a[1..], b[1..]);
      assert a == [a[0]] + a[1..] && b == [b[0]] + b[1..];
      k := k + 1;
    }
  }

  lemma {:induction false} BeforeIsTotal(a: string, b: string)
    ensures Before(a, b) || Before(b, a)
  {
    if a != "" && b != "" {
      BeforeIsTotal(a[1..], b[1..]);
    }
  }

  lemma {:induction false} BeforeIsAntisymmetric(a: string, b: string)
    requires Before(a, b) && Before(b, a)
    ensures a == b
  {
    if a != "" && b != "" {
      BeforeIsAntisymmetric(a[1..], b[1..]);
      assert a == [a[0]] + a[1..] && b == [b[0]] + b[1..];
    }
  }

  lemma {:induction false} BeforeIsTransitive(a: string, b: string, c: string)
    requires Before(a, b) && Before(b, c)
    ensures Before(a, c)
  {
    if a != "" && b != "" && c != "" && a[0] == b[0] == c[0] {
      BeforeIsTransitive(a[1..], b[1..], c[1..]);
    }
  }

  predicate Sorted(s: seq<string>) {
    forall i, j :: 0 <= i < j < |s| ==> Before(s[i], s[j])
  }

  predicate Distinct(s: seq<string>) {
    forall i, j :: 0 <= i < j < |s| ==> s[i] != s[j]
  }

  function Insert(x: string, s: seq<string>): seq<string> {
    if s == [] || Before(x, s[0]) then [x] + s else [s[0]] + Insert(x, s[1..])
  }

  /** `sort_by_key` on the spelling. */
  function Sort(s: seq<string>): seq<string> {
    if s == [] then [] else Insert(s[0], Sort(s[1..]))
  }

  lemma {:induction false} InsertFits(x: string, s: seq<string>)
    requires Sorted(s)
    ensures Sorted(Insert(x, s)) && forall y :: y in Insert(x, s) <==> y == x || y in s
  {
    if s != [] && !Before(x, s[0]) {
      BeforeIsTotal(x, s[0]);
      InsertFits(x, s[1..]);
      assert s == [s[0]] + s[1..];
      var t := Insert(x, s[1..]);
      forall j | 0 <= j < |t| ensures Before(s[0], t[j]) {
        assert t[j] in t;
      }
    } else if s != [] {
      forall j | 0 <= j < |s| ensures Before(x, s[j]) {
        if j > 0 {
          BeforeIsTransitive(x, s[0], s[j]);
        }
      }
    }
  }

  lemma {:induction false} SortFits(s: seq<string>)
    ensures Sorted(Sort(s)) && forall y :: y in Sort(s) <==> y in s
  {
    if s != [] {
      SortFits(s[1..]);
      InsertFits(s[0], Sort(s[1..]));
      assert s == [s[0]] + s[1..];
    }
  }

  /** `dedup`: drops a name that equals the one before it. */
  function Dedup(s: seq<string>): seq<string> {
    if |s| < 2 then s else if s[0] == s[1] then Dedup(s[1..]) else [s[0]] + Dedup(s[1..])
  }

  /** On a sorted list dropping neighbours leaves every name once. */
  lemma {:induction false} DedupFits(s: seq<string>)
    requires Sorted(s)
    ensures Sorted(Dedup(s)) && Distinct(Dedup(s)) && forall y :: y in Dedup(s) <==> y in s
  {
    if |s| >= 2 {
      DedupFits(s[1..]);
      assert s == [s[0]] + s[1..];
      var t := Dedup(s[1..]);
      if s[0] != s[1] {
        forall j | 0 <= j < |t| ensures Before(s[0], t[j]) && s[0] != t[j] {
          assert t[j] in s[1..];
          var i :| 1 <= i < |s| && s[i] == t[j];
          if t[j] == s[0] && i > 1 {
            BeforeIsAntisymmetric(s[0], s[1]);
          }
        }
      } else {
        assert s[1] in s[1..];
      }
    }
  }

  // ---- the macro

  /** The loop over one chain. */
  method CompileString(conn: ConnectionString) returns (blocks: seq<string>, edges: seq<Edge>)
    ensures edges == EdgesOf(conn) && forall y :: y in blocks <==> y in BlocksOf(conn)
    ensures |edges| == |conn.connections| && forall k :: 0 <= k < |edges| ==> Joins(edges[k], conn, k)
  {
    blocks, edges := [conn.source.block], [];
    var srcBlock, srcPort := conn.source.block, conn.source.output;
    for k := 0 to |conn.connections|
      invariant (srcBlock, srcPort) == Origin(conn, k)
      invariant edges == EdgesOf(conn)[..k] && forall j :: 0 <= j < k ==> Joins(edges[j], conn, j)
      invariant |blocks| == k + 1 && blocks[0] == conn.source.block
      invariant forall j :: 0 <= j < k ==> blocks[j + 1] == conn.connections[j].dst.block
    {
      var link, dst := conn.connections[k].link, conn.connections[k].dst;
      blocks := blocks + [dst.block];
      var out := Edge(link, srcBlock, Resolve(link, srcPort, "output", "out"), dst.block,
                      Resolve(link, dst.input, "input", "in"));
      assert EdgesOf(conn)[..k + 1] == EdgesOf(conn)[..k] + [EdgesOf(conn)[k]];
      EdgeJoins(conn, k);
      edges := edges + [out];
      srcBlock, srcPort := dst.block, dst.output;
    }
    SameBlocks(conn, blocks);
  }

  lemma SameBlocks(conn: ConnectionString, blocks: seq<string>)
    requires |blocks| == |conn.connections| + 1 && blocks[0] == conn.source.block
    requires forall j :: 0 <= j < |conn.connections| ==> blocks[j + 1] == conn.connections[j].dst.block
    ensures forall y :: y in blocks <==> y in BlocksOf(conn)
  {
    forall y | y in blocks ensures y in BlocksOf(conn) {
      var i :| 0 <= i < |blocks| && blocks[i] == y;
      if i > 0 {
        assert blocks[(i - 1) + 1] == conn.connections[i - 1].dst.block;
      }
    }
    forall y | y in BlocksOf(conn) ensures y in blocks {
      if y != conn.source.block {
        var k :| 0 <= k < |conn.connections| && conn.connections[k].dst.block == y;
        assert blocks[k + 1] == y;
      }
    }
  }

  /** The loop over the chains. */
  method Collect(input: ConnectInput) returns (blocks: seq<string>, edges: seq<Edge>)
    ensures edges == AllEdges(input.strings) && forall y :: y in blocks <==> y in Mentioned(input.strings)
  {
    blocks, edges := [], [];
    for k := 0 to |input.strings|
      invariant edges == AllEdges(input.strings[..k])
      invariant forall y :: y in blocks <==> y in Mentioned(input.strings[..k])
    {
      var bs, es := CompileString(input.strings[k]);
      assert input.strings[..k + 1][..k] == input.strings[..k];
      blocks := blocks + bs;
      edges := edges + es;
    }
    assert input.strings[..|input.strings|] == input.strings;
  }

  /** `connect`: one edge for each link, in order, and each mentioned block declared exactly once, in the order of
      names. */
  method Compile(input: ConnectInput) returns (declared: seq<string>, edges: seq<Edge>)
    ensures edges == AllEdges(input.strings) && |edges| == Links(input.strings)
    ensures forall n, k :: 0 <= n < |input.strings| && 0 <= k < |input.strings[n].connections| ==>
              var at := Place(input.strings, n, k);
              at < |edges| && Joins(edges[at], input.strings[n], k)
    ensures Sorted(declared) && Distinct(declared) && forall y :: y in declared <==> y in Mentioned(input.strings)
  {
    var blocks;
    blocks, edges := Collect(input);
    SortFits(blocks);
    DedupFits(Sort(blocks));
    declared := Dedup(Sort(blocks));
    AllEdgesCount(input.strings);
    forall n, k | 0 <= n < |input.strings| && 0 <= k < |input.strings[n].connections|
      ensures Place(input.strings, n, k) < |edges|
      ensures Joins(edges[Place(input.strings, n, k)], input.strings[n], k)
    {
      AllEdgesAt(input.strings, n, k);
      EdgeJoins(input.strings[n], k);
    }
  }

  // ---- what the edges tell of the chain

  /** The name a port has after the defaults, and its index. */
  function NameOf(link: ConnectionType, p: Option<Port>, streamDefault: string, messageDefault: string): string {
    match p
    case Some(port) => port.name
    case None => if link.Message? then messageDefault else streamDefault
  }

  function IndexOf(p: Option<Port>): Option<nat> {
    if p.Some? then p.value.index else None
  }

  predicate SamePort(link: ConnectionType, p: Option<Port>, q: Option<Port>, streamDefault: string,
                     messageDefault: string) {
    && NameOf(link, p, streamDefault, messageDefault) == NameOf(link, q, streamDefault, messageDefault)
    && (link.Message? || IndexOf(p) == IndexOf(q))
  }

  /** Link k of two chains: the same kind between the same blocks, at ports that do not differ but in a name that is the
      default, or in an index that a message link drops. */
  predicate SameLink(s: ConnectionString, t: ConnectionString, k: nat)
    requires k < |s.connections| && k < |t.connections|
  {
    var c, d := s.connections[k], t.connections[k];
    && c.link == d.link && Origin(s, k).0 == Origin(t, k).0 && c.dst.block == d.dst.block
    && SamePort(c.link, Origin(s, k).1, Origin(t, k).1, "output", "out")
    && SamePort(c.link, c.dst.input, d.dst.input, "input", "in")
  }

  lemma SameEdgeIff(s: ConnectionString, t: ConnectionString, k: nat)
    requires k < |s.connections| && k < |t.connections|
    ensures EdgeAt(s, k) == EdgeAt(t, k) <==> SameLink(s, t, k)
  {
  }

  /** Two chains compile to the same edges exactly if they have the same links, up to those two differences. */
  lemma SameEdgesIff(s: ConnectionString, t: ConnectionString)
    ensures EdgesOf(s) == EdgesOf(t)
            <==> |s.connections| == |t.connections| && forall k :: 0 <= k < |s.connections| ==> SameLink(s, t, k)
  {
    if |s.connections| == |t.connections| {
      forall k | 0 <= k < |s.connections| ensures EdgesOf(s)[k] == EdgesOf(t)[k] <==> SameLink(s, t, k) {
        SameEdgeIff(s, t, k);
      }
    }
  }

  /** A port that is not the default written out, and no index where it would be dropped. */
  predicate PlainPort(link: ConnectionType, p: Option<Port>, streamDefault: string, messageDefault: string) {
    p.Some? ==>
      if link.Message? then p.value.index.None? && p.value.name != messageDefault
      else p.value.index.Some? || p.value.name != streamDefault
  }

  predicate PlainLink(s: ConnectionString, k: nat)
    requires k < |s.connections|
  {
    var c := s.connections[k];
    PlainPort(c.link, Origin(s, k).1, "output", "out") && PlainPort(c.link, c.dst.input, "input", "in")
  }

  /** Every port is plain, and the last endpoint has no output, which no link would use. */
  predicate Plain(s: ConnectionString) {
    var n := |s.connections|;
    && n > 0 && s.connections[n - 1].dst.output.None?
    && forall k :: 0 <= k < n ==> PlainLink(s, k)
  }

  lemma PlainPortsDiffer(link: ConnectionType, p: Option<Port>, q: Option<Port>, streamDefault: string,
                         messageDefault: string)
    requires PlainPort(link, p, streamDefault, messageDefault) && PlainPort(link, q, streamDefault, messageDefault)
    ensures SamePort(link, p, q, streamDefault, messageDefault) <==> p == q
  {
  }

  /** Plain chains can be told apart by their edges. */
  lemma EdgesAreInjective(s: ConnectionString, t: ConnectionString)
    requires Plain(s) && Plain(t)
    ensures EdgesOf(s) == EdgesOf(t) <==> s == t
  {
    if EdgesOf(s) == EdgesOf(t) {
      SameEdgesIff(s, t);
      forall k | 0 <= k < |s.connections|
        ensures Origin(s, k) == Origin(t, k) && s.connections[k].link == t.connections[k].link
        ensures s.connections[k].dst.block == t.connections[k].dst.block
        ensures s.connections[k].dst.input == t.connections[k].dst.input
      {
        PlainLinksDiffer(s, t, k);
      }
      forall k | 0 <= k < |s.connections| ensures s.connections[k] == t.connections[k] {
        if k + 1 < |s.connections| {
          assert Origin(s, k + 1) == Origin(t, k + 1);
        }
      }
      assert Origin(s, 0) == Origin(t, 0);
    }
  }

  lemma PlainLinksDiffer(s: ConnectionString, t: ConnectionString, k: nat)
    requires k < |s.connections| && k < |t.connections| && PlainLink(s, k) && PlainLink(t, k) && SameLink(s, t, k)
    ensures Origin(s, k) == Origin(t, k) && s.connections[k].link == t.connections[k].link
    ensures s.connections[k].dst.block == t.connections[k].dst.block
    ensures s.connections[k].dst.input == t.connections[k].dst.input
  {
    var c, d := s.connections[k], t.connections[k];
    PlainPortsDiffer(c.link, Origin(s, k).1, Origin(t, k).1, "output", "out");
    PlainPortsDiffer(c.link, c.dst.input, d.dst.input, "input", "in");
  }

  /** Both differences do occur: an index on a message link, and a default written out. */
  lemma DifferentChainsOneEdge(a: string, b: string, i: nat)
    ensures var links := [Connection(Message, Endpoint(b, None, None))];
            var plain := ConnectionString(Source(a, None), links);
            var named := ConnectionString(Source(a, Some(Port("out", None))), links);
            var indexed := ConnectionString(Source(a, Some(Port("out", Some(i)))), links);
            EdgesOf(plain) == EdgesOf(named) == EdgesOf(indexed)
  {
    var links := [Connection(Message, Endpoint(b, None, None))];
    var plain := ConnectionString(Source(a, None), links);
    SameEdgesIff(plain, ConnectionString(Source(a, Some(Port("out", None))), links));
    SameEdgesIff(plain, ConnectionString(Source(a, Some(Port("out", Some(i)))), links));
  }
}
