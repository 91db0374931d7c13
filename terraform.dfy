/** The configuration document written at the end of a run: a provider block, a
    transit-gateway attachment block and a route block, filled in with the five resolved
    values. The subnet ids are rendered with Python's `repr` of a list of strings. */
module Terraform {
  import opened Results

  // ---------------------------------------------------------------------------
  // Python's repr of a str and of a list of str
  // ---------------------------------------------------------------------------

  /** The quote Python's `repr` encloses a string in: a double quote only when the string
      holds a single quote and no double quote. */
  function QuoteFor(s: string): (q: char)
    ensures q == '\'' || q == '"'
  {
    if '\'' in s && '"' !in s then '"' else '\''
  }

  /** Lower-case hexadecimal digit of a value below 16. */
  function HexDigit(n: nat): char
    requires n < 16
  {
    if n < 10 then ('0' as int + n) as char else ('a' as int + n - 10) as char
  }

  /** How `repr` writes one character inside quote `q`: the quote and the backslash are
      escaped, tab, newline and carriage return use their letter escapes, the other ASCII
      control characters and DEL use `\xhh`, everything else is written as is. */
  function EscapeChar(c: char, q: char): string
  {
    if c == q || c == '\\' then ['\\', c]
    else if c == '\t' then ['\\', 't']
    else if c == '\n' then ['\\', 'n']
    else if c == '\r' then ['\\', 'r']
    else if c as int < 0x20 || c as int == 0x7F then ['\\', 'x', HexDigit(c as int / 16), HexDigit(c as int % 16)]
    else [c]
  }

  function Escape(s: string, q: char): string
  {
    if s == [] then [] else EscapeChar(s[0], q) + Escape(s[1..], q)
  }

  /** Python's `repr` of a string. */
  function PyRepr(s: string): string
  {
    var q := QuoteFor(s);
    [q] + Escape(s, q) + [q]
  }

  /** The items of a list repr: each item's repr, separated by ", ". */
  function JoinReprs(items: seq<string>): string
  {
    if items == [] then ""
    else if |items| == 1 then PyRepr(items[0])
    else PyRepr(items[0]) + ", " + JoinReprs(items[1..])
  }

  /** Python's `repr` (and `str`) of a list of strings. */
  function PyListRepr(items: seq<string>): string
  {
    "[" + JoinReprs(items) + "]"
  }

  // ---------------------------------------------------------------------------
  // The document
  // ---------------------------------------------------------------------------

  const ProviderBlock := "\nprovider \"aws\" {\n  region = \"us-west-2\"\n}\n\n"
  const AttachmentOpen := "resource \"aws_ec2_transit_gateway_vpc_attachment\" \"example\" {\n  transit_gateway_id = \""
  const VpcIdLine := "\n  vpc_id             = \""
  const SubnetIdsLine := "\n  subnet_ids         = "
  const AttachmentClose := "\n}\n"
  const RouteOpen := "\nresource \"aws_route\" \"example\" {\n  route_table_id         = \""
  const CidrLine := "\n  destination_cidr_block = \""
  const RouteHubLine := "\n  transit_gateway_id     = \""
  const RouteClose := "\n}\n"

  /** The attachment resource: hub, VPC and subnet list. */
  function AttachmentBlock(tgwId: string, vpcId: string, subnetIds: seq<string>): string
  {
    AttachmentOpen + tgwId + "\"" + VpcIdLine + vpcId + "\"" + SubnetIdsLine + PyListRepr(subnetIds) + AttachmentClose
  }

  /** The route resource, preceded by the blank line that separates it from the attachment. */
  function RouteBlock(routeTableId: string, destinationCidr: string, tgwId: string): string
  {
    RouteOpen + routeTableId + "\"" + CidrLine + destinationCidr + "\"" + RouteHubLine + tgwId + "\"" + RouteClose
  }

  /** The whole document for the five resolved values. */
  function Render(tgwId: string, vpcId: string, subnetIds: seq<string>, routeTableId: string, destinationCidr: string): string
  {
    ProviderBlock + AttachmentBlock(tgwId, vpcId, subnetIds) + RouteBlock(routeTableId, destinationCidr, tgwId)
  }

  // ---------------------------------------------------------------------------
  // Reading a document back: the inverse the round-trip lemmas are stated against
  // ---------------------------------------------------------------------------

  datatype Attachment = Attachment(transitGatewayId: string, vpcId: string, subnetIds: seq<string>)
  datatype Route = Route(routeTableId: string, destinationCidrBlock: string, transitGatewayId: string)
  datatype Document = Document(attachment: Attachment, route: Route)

  function HexValue(d: char): (r: Option<nat>)
    ensures r.Some? ==> r.value < 16
  {
    if '0' <= d <= '9' then Some(d as int - '0' as int)
    else if 'a' <= d <= 'f' then Some(d as int - 'a' as int + 10)
    else None
  }

  /** Reads one escape sequence (the text after a backslash); gives the character and the rest. */
  function UnescapeOne(u: string): (r: Option<(char, string)>)
    ensures r.Some? ==> |r.value.1| < |u|
  {
    if |u| == 0 then None
    else if u[0] == '\\' || u[0] == '\'' || u[0] == '"' then Some((u[0], u[1..]))
    else if u[0] == 't' then Some(('\t', u[1..]))
    else if u[0] == 'n' then Some(('\n', u[1..]))
    else if u[0] == 'r' then Some(('\r', u[1..]))
    else if u[0] == 'x' && |u| >= 3 then
      var hi :- HexValue(u[1]);
      var lo :- HexValue(u[2]);
      Some(((hi * 16 + lo) as char, u[3..]))
    else None
  }

  /** Reads the body of a string literal up to its closing quote `q`; gives the decoded
      string and the text after the closing quote. */
  function Unescape(t: string, q: char): (r: Option<(string, string)>)
    ensures r.Some? ==> |r.value.1| < |t|
    decreases |t|
  {
    if |t| == 0 then None
    else if t[0] == q then Some(([], t[1..]))
    else if t[0] == '\\' then
      var e :- UnescapeOne(t[1..]);
      var more :- Unescape(e.1, q);
      Some(([e.0] + more.0, more.1))
    else
      var more :- Unescape(t[1..], q);
      Some(([t[0]] + more.0, more.1))
  }

  /** Reads one quoted string literal. */
  function ParseRepr(t: string): (r: Option<(string, string)>)
    ensures r.Some? ==> |r.value.1| < |t|
  {
    if |t| > 0 && (t[0] == '\'' || t[0] == '"') then Unescape(t[1..], t[0]) else None
  }

  /** Reads the items of a non-empty list literal, up to and including the closing bracket. */
  function ParseItems(t: string): (r: Option<(seq<string>, string)>)
    ensures r.Some? ==> |r.value.1| < |t|
    decreases |t|
  {
    var item :- ParseRepr(t);
    var rest := item.1;
    if |rest| > 0 && rest[0] == ']' then Some(([item.0], rest[1..]))
    else if |rest| >= 2 && rest[..2] == ", " then
      var more :- ParseItems(rest[2..]);
      Some(([item.0] + more.0, more.1))
    else None
  }

  /** Reads a list literal of strings. */
  function ParseList(t: string): Option<(seq<string>, string)>
  {
    if |t| >= 2 && t[..2] == "[]" then Some(([], t[2..]))
    else if |t| > 0 && t[0] == '[' then ParseItems(t[1..])
    else None
  }

  /** Strips the literal `lit` from the front of `t`. */
  function Expect(lit: string, t: string): Option<string>
  {
    if |lit| <= |t| && t[..|lit|] == lit then Some(t[|lit|..]) else None
  }

  /** Reads a value up to the next double quote and consumes that quote. */
  function QuotedValue(t: string): (r: Option<(string, string)>)
    decreases |t|
  {
    if |t| == 0 then None
    else if t[0] == '"' then Some(([], t[1..]))
    else
      var more :- QuotedValue(t[1..]);
      Some(([t[0]] + more.0, more.1))
  }

  function ParseAttachment(t: string): Option<(Attachment, string)>
  {
    var t1 :- Expect(AttachmentOpen, t);
    var hub :- QuotedValue(t1);
    var t2 :- Expect(VpcIdLine, hub.1);
    var vpc :- QuotedValue(t2);
    var t3 :- Expect(SubnetIdsLine, vpc.1);
    var subnets :- ParseList(t3);
    var t4 :- Expect(AttachmentClose, subnets.1);
    Some((Attachment(hub.0, vpc.0, subnets.0), t4))
  }

  function ParseRoute(t: string): Option<(Route, string)>
  {
    var t1 :- Expect(RouteOpen, t);
    var table :- QuotedValue(t1);
    var t2 :- Expect(CidrLine, table.1);
    var cidr :- QuotedValue(t2);
    var t3 :- Expect(RouteHubLine, cidr.1);
    var hub :- QuotedValue(t3);
    var t4 :- Expect(RouteClose, hub.1);
    Some((Route(table.0, cidr.0, hub.0), t4))
  }

  /** Reads a whole document: the provider block, then exactly an attachment block and a
      route block, then nothing. */
  function ParseDocument(t: string): Option<Document>
  {
    var t1 :- Expect(ProviderBlock, t);
    var attachment :- ParseAttachment(t1);
    var route :- ParseRoute(attachment.1);
    if route.1 == [] then Some(Document(attachment.0, route.0)) else None
  }

  // ---------------------------------------------------------------------------
  // Properties
  // ---------------------------------------------------------------------------

  /** A character `repr` writes as it is, other than either quote. */
  predicate PlainChar(c: char)
  {
    c != '\'' && c != '"' && c != '\\' && c as int >= 0x20 && c as int != 0x7F
  }

  /** A string made only of plain characters, as AWS resource ids are. */
  predicate Plain(s: string)
  {
    s == [] || (PlainChar(s[0]) && Plain(s[1..]))
  }

  /** A plain string (an AWS resource id, say) is written between single quotes, unchanged. */
  lemma {:induction false} PlainRepr(s: string)
    requires Plain(s)
    ensures PyRepr(s) == "'" + s + "'"
  {
    PlainEscape(s);
  }

  lemma {:induction false} PlainEscape(s: string)
    requires Plain(s)
    ensures Escape(s, '\'') == s && '\'' !in s && '"' !in s
  {
    if s != [] {
      PlainEscape(s[1..]);
      assert s == [s[0]] + s[1..];
    }
  }

  lemma HexDigitValue(n: nat)
    requires n < 16
    ensures HexValue(HexDigit(n)) == Some(n)
  {
  }

  /** Decoding the escape of one character yields that character and continues after it. */
  lemma UnescapeEscapeChar(c: char, q: char, tail: string)
    requires q == '\'' || q == '"'
    requires Unescape(tail, q).Some?
    ensures Unescape(EscapeChar(c, q) + tail, q)
            == Some(([c] + Unescape(tail, q).value.0, Unescape(tail, q).value.1))
  {
    var t := EscapeChar(c, q) + tail;
    if c == q || c == '\\' {
      assert t[1..] == [c] + tail;
    } else if c == '\t' || c == '\n' || c == '\r' {
      assert t[1..] == [t[1]] + tail;
    } else if c as int < 0x20 || c as int == 0x7F {
      var n := c as int;
      HexDigitValue(n / 16);
      HexDigitValue(n % 16);
      assert t[1..][3..] == tail;
      assert (n / 16 * 16 + n % 16) as char == c;
    } else {
      assert t[1..] == tail;
    }
  }

  /** Decoding undoes escaping: the body of a literal reads back as the original string,
      and reading stops right after the closing quote. */
  lemma {:induction false} UnescapeEscape(s: string, q: char, rest: string)
    requires q == '\'' || q == '"'
    ensures Unescape(Escape(s, q) + [q] + rest, q) == Some((s, rest))
  {
    if s == [] {
      assert Escape(s, q) + [q] + rest == [q] + rest;
    } else {
      var tail := Escape(s[1..], q) + [q] + rest;
      UnescapeEscape(s[1..], q, rest);
      assert Escape(s, q) + [q] + rest == EscapeChar(s[0], q) + tail;
      UnescapeEscapeChar(s[0], q, tail);
      assert [s[0]] + s[1..] == s;
    }
  }

  /** `repr` of a string reads back as that string, whatever characters it holds. */
  lemma ParseReprRoundTrip(s: string, rest: string)
    ensures ParseRepr(PyRepr(s) + rest) == Some((s, rest))
  {
    var q := QuoteFor(s);
    assert PyRepr(s) + rest == [q] + (Escape(s, q) + [q] + rest);
    UnescapeEscape(s, q, rest);
  }

  lemma {:induction false} ParseItemsRoundTrip(items: seq<string>, rest: string)
    requires items != []
    ensures ParseItems(JoinReprs(items) + "]" + rest) == Some((items, rest))
  {
    if |items| == 1 {
      ParseReprRoundTrip(items[0], "]" + rest);
      assert JoinReprs(items) + "]" + rest == PyRepr(items[0]) + ("]" + rest);
      assert ("]" + rest)[1..] == rest;
      assert [items[0]] == items;
    } else {
      var more := JoinReprs(items[1..]) + "]" + rest;
      ParseReprRoundTrip(items[0], ", " + more);
      assert JoinReprs(items) + "]" + rest == PyRepr(items[0]) + (", " + more);
      assert (", " + more)[..2] == ", " && (", " + more)[2..] == more;
      ParseItemsRoundTrip(items[1..], rest);
      assert [items[0]] + items[1..] == items;
    }
  }

  /** Python's list repr reads back as the same list: the same number of ids, in the same
      order, each unchanged. */
  lemma ParseListRoundTrip(items: seq<string>, rest: string)
    ensures ParseList(PyListRepr(items) + rest) == Some((items, rest))
  {
    var t := PyListRepr(items) + rest;
    if items == [] {
      assert t == "[]" + rest;
    } else {
      ParseItemsRoundTrip(items, rest);
      assert t[1..] == JoinReprs(items) + "]" + rest;
      var r := PyRepr(items[0]);
      assert t[1] == r[0];
    }
  }

  lemma ExpectLiteral(lit: string, rest: string)
    ensures Expect(lit, lit + rest) == Some(rest)
  {
    assert (lit + rest)[..|lit|] == lit;
  }

  lemma {:induction false} QuotedValueRoundTrip(v: string, rest: string)
    requires '"' !in v
    ensures QuotedValue(v + "\"" + rest) == Some((v, rest))
  {
    if v != [] {
      QuotedValueRoundTrip(v[1..], rest);
      assert (v + "\"" + rest)[1..] == v[1..] + "\"" + rest;
      assert [v[0]] + v[1..] == v;
    }
  }

  /** Regrouping of a block and what follows it, in the shape the readers consume it. */
  lemma Regroup(a: string, b: string, c: string, d: string, e: string, f: string, g: string, h: string, i: string, rest: string)
    ensures a + b + c + d + e + f + g + h + i + rest == a + ((b + c) + (d + ((e + f) + (g + (h + (i + rest))))))
  {
  }

  /** The attachment block carries the hub, the VPC and the subnet list, in that order. */
  lemma ParseAttachmentRoundTrip(tgwId: string, vpcId: string, subnetIds: seq<string>, rest: string)
    requires '"' !in tgwId && '"' !in vpcId
    ensures ParseAttachment(AttachmentBlock(tgwId, vpcId, subnetIds) + rest)
            == Some((Attachment(tgwId, vpcId, subnetIds), rest))
  {
    var list := PyListRepr(subnetIds);
    var t4 := AttachmentClose + rest;
    var t3 := list + t4;
    var t2 := vpcId + "\"" + (SubnetIdsLine + t3);
    var t1 := tgwId + "\"" + (VpcIdLine + t2);
    var s := AttachmentBlock(tgwId, vpcId, subnetIds) + rest;
    assert s == AttachmentOpen + t1 by {
      Regroup(AttachmentOpen, tgwId, "\"", VpcIdLine, vpcId, "\"", SubnetIdsLine, list, AttachmentClose, rest);
    }
    assert Expect(AttachmentOpen, s) == Some(t1) by { ExpectLiteral(AttachmentOpen, t1); }
    assert QuotedValue(t1) == Some((tgwId, VpcIdLine + t2)) by { QuotedValueRoundTrip(tgwId, VpcIdLine + t2); }
    assert Expect(VpcIdLine, VpcIdLine + t2) == Some(t2) by { ExpectLiteral(VpcIdLine, t2); }
    assert QuotedValue(t2) == Some((vpcId, SubnetIdsLine + t3)) by { QuotedValueRoundTrip(vpcId, SubnetIdsLine + t3); }
    assert Expect(SubnetIdsLine, SubnetIdsLine + t3) == Some(t3) by { ExpectLiteral(SubnetIdsLine, t3); }
    assert ParseList(t3) == Some((subnetIds, t4)) by { ParseListRoundTrip(subnetIds, t4); }
    assert Expect(AttachmentClose, t4) == Some(rest) by { ExpectLiteral(AttachmentClose, rest); }
  }

  /** The route block carries the route table, the destination block and the hub, in that order. */
  lemma ParseRouteRoundTrip(routeTableId: string, destinationCidr: string, tgwId: string, rest: string)
    requires '"' !in routeTableId && '"' !in destinationCidr && '"' !in tgwId
    ensures ParseRoute(RouteBlock(routeTableId, destinationCidr, tgwId) + rest)
            == Some((Route(routeTableId, destinationCidr, tgwId), rest))
  {
    var t4 := RouteClose + rest;
    var t3 := tgwId + "\"" + t4;
    var t2 := destinationCidr + "\"" + (RouteHubLine + t3);
    var t1 := routeTableId + "\"" + (CidrLine + t2);
    var s := RouteBlock(routeTableId, destinationCidr, tgwId) + rest;
    assert s == RouteOpen + t1 by {
      Regroup(RouteOpen, routeTableId, "\"", CidrLine, destinationCidr, "\"", RouteHubLine, tgwId + "\"", RouteClose, rest);
      assert tgwId + "\"" + (RouteClose + rest) == tgwId + "\"" + RouteClose + rest;
    }
    assert Expect(RouteOpen, s) == Some(t1) by { ExpectLiteral(RouteOpen, t1); }
    assert QuotedValue(t1) == Some((routeTableId, CidrLine + t2)) by { QuotedValueRoundTrip(routeTableId, CidrLine + t2); }
    assert Expect(CidrLine, CidrLine + t2) == Some(t2) by { ExpectLiteral(CidrLine, t2); }
    assert QuotedValue(t2) == Some((destinationCidr, RouteHubLine + t3)) by { QuotedValueRoundTrip(destinationCidr, RouteHubLine + t3); }
    assert Expect(RouteHubLine, RouteHubLine + t3) == Some(t3) by { ExpectLiteral(RouteHubLine, t3); }
    assert QuotedValue(t3) == Some((tgwId, t4)) by { QuotedValueRoundTrip(tgwId, t4); }
    assert Expect(RouteClose, t4) == Some(rest) by { ExpectLiteral(RouteClose, rest); }
  }

  /** The rendered document holds exactly two resource blocks, the attachment and then the
      route; the hub id is in both, the VPC id and the subnet ids in the attachment, the
      route table id and the destination block in the route. */
  lemma RenderRoundTrip(tgwId: string, vpcId: string, subnetIds: seq<string>, routeTableId: string, destinationCidr: string)
    requires '"' !in tgwId && '"' !in vpcId && '"' !in routeTableId && '"' !in destinationCidr
    ensures ParseDocument(Render(tgwId, vpcId, subnetIds, routeTableId, destinationCidr))
            == Some(Document(Attachment(tgwId, vpcId, subnetIds), Route(routeTableId, destinationCidr, tgwId)))
  {
    var route := RouteBlock(routeTableId, destinationCidr, tgwId);
    var t1 := AttachmentBlock(tgwId, vpcId, subnetIds) + route;
    assert Render(tgwId, vpcId, subnetIds, routeTableId, destinationCidr) == ProviderBlock + t1;
    ExpectLiteral(ProviderBlock, t1);
    ParseAttachmentRoundTrip(tgwId, vpcId, subnetIds, route);
    ParseRouteRoundTrip(routeTableId, destinationCidr, tgwId, []);
    assert route + [] == route;
  }

  /** Distinct values give distinct documents: the document determines all five inputs. */
  lemma RenderInjective(tgwId: string, vpcId: string, subnetIds: seq<string>, routeTableId: string, destinationCidr: string,
                        tgwId': string, vpcId': string, subnetIds': seq<string>, routeTableId': string, destinationCidr': string)
    requires '"' !in tgwId && '"' !in vpcId && '"' !in routeTableId && '"' !in destinationCidr
    requires '"' !in tgwId' && '"' !in vpcId' && '"' !in routeTableId' && '"' !in destinationCidr'
    requires Render(tgwId, vpcId, subnetIds, routeTableId, destinationCidr)
             == Render(tgwId', vpcId', subnetIds', routeTableId', destinationCidr')
    ensures tgwId == tgwId' && vpcId == vpcId' && subnetIds == subnetIds'
    ensures routeTableId == routeTableId' && destinationCidr == destinationCidr'
  {
    RenderRoundTrip(tgwId, vpcId, subnetIds, routeTableId, destinationCidr);
    RenderRoundTrip(tgwId', vpcId', subnetIds', routeTableId', destinationCidr');
  }

  /** Regrouping of a two-item list literal. */
  lemma RegroupList(open: string, q: string, a: string, sep: string, b: string, close: string)
    ensures open + ((q + a + q) + sep + (q + b + q)) + close == open + q + a + q + sep + q + b + q + close
  {
  }

  /** Two plain ids (AWS subnet ids, say) are rendered as `['a', 'b']`. */
  lemma TwoPlainIdsListed(a: string, b: string)
    requires Plain(a) && Plain(b)
    ensures PyListRepr([a, b]) == "[" + "'" + a + "'" + ", " + "'" + b + "'" + "]"
  {
    calc {
      PyListRepr([a, b]);
      "[" + JoinReprs([a, b]) + "]";
      { assert [a, b][1..] == [b]; }
      "[" + (PyRepr(a) + ", " + PyRepr(b)) + "]";
      { PlainRepr(a); PlainRepr(b); }
      "[" + (("'" + a + "'") + ", " + ("'" + b + "'")) + "]";
      { RegroupList("[", "'", a, ", ", b, "]"); }
      "[" + "'" + a + "'" + ", " + "'" + b + "'" + "]";
    }
  }
}
