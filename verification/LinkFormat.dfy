/** Resource discovery on a node: the link format of RFC 6690, section 2, written and taken apart. */
module LinkFormat {
  import Wire

  /** `s.split(c)`. */
  function Split(s: string, c: char): (parts: seq<string>)
    ensures parts != []
  {
    if s == "" then [""]
    else
      var rest := Split(s[1..], c);
      if s[0] == c then [""] + rest else [[s[0]] + rest[0]] + rest[1..]
  }

  /** `c.join(parts)`. */
  function Join(parts: seq<string>, c: char): string {
    if parts == [] then ""
    else if |parts| == 1 then parts[0]
    else parts[0] + ([c] + Join(parts[1..], c))
  }

  /** `s.replace(c, '')`. */
  function Remove(s: string, c: char): string {
    if s == "" then ""
    else if s[0] == c then Remove(s[1..], c)
    else [s[0]] + Remove(s[1..], c)
  }

  /** `_coap_endpoints`. */
  function Endpoints(header: string): seq<string> {
    Split(Remove(header, ' '), ',')
  }

  predicate IsCore(endpoint: string) {
    Wire.Substring("well-known/core", endpoint)
  }

  /** What is left of an entry once its attributes and brackets are gone. */
  function PathOf(endpoint: string): string {
    Remove(Remove(Split(endpoint, ';')[0], '<'), '>')
  }

  /** The paths `discover_node` asks a node for, one after the other. */
  function Paths(endpoints: seq<string>): seq<string> {
    if endpoints == [] then []
    else (if IsCore(endpoints[0]) then [] else [PathOf(endpoints[0])]) + Paths(endpoints[1..])
  }

  function Discovered(payload: string): seq<string> {
    Paths(Endpoints(payload))
  }

  // ---------------------------------------------------------------------------------------
  // Writing

  datatype Link = Link(path: string, attrs: seq<string>)
  {
    predicate Plain() {
      && (forall c :: c in path ==> c !in ",;<> ")
      && (forall k :: 0 <= k < |attrs| ==> ',' !in attrs[k])
    }

    /** `<path>;attr;...`. */
    function Text(): string {
      "<" + path + ">" + Attributes(attrs)
    }
  }

  function Attributes(attrs: seq<string>): string {
    if attrs == [] then "" else ";" + attrs[0] + Attributes(attrs[1..])
  }

  function Texts(links: seq<Link>): seq<string> {
    if links == [] then [] else [links[0].Text()] + Texts(links[1..])
  }

  /** `word` stands at place `i` of `text`. */
  ghost predicate HoldsAt(text: string, word: string, i: nat) {
    i + |word| <= |text| && text[i..i + |word|] == word
  }

  ghost predicate Holds(text: string, word: string) {
    exists i: nat :: HoldsAt(text, word, i)
  }

  /** The paths a node offers, other than the description itself. */
  ghost function Offered(links: seq<Link>): seq<string> {
    if links == [] then [] else (if Holds(links[0].Text(), "well-known/core") then [] else [links[0].path]) + Offered(links[1..])
  }

  // ---------------------------------------------------------------------------------------
  // Reading back

  lemma {:induction false} SplitOne(s: string, c: char)
    requires c !in s
    ensures Split(s, c) == [s]
  {
    if s != "" {
      SplitOne(s[1..], c);
      assert [s[0]] + s[1..] == s;
    }
  }

  lemma {:induction false} SplitFirst(s: string, c: char, rest: string)
    requires c !in s
    ensures Split(s + ([c] + rest), c) == [s] + Split(rest, c)
  {
    var all := s + ([c] + rest);
    if s == "" {
      assert all == [c] + rest && all[1..] == rest;
    } else {
      SplitFirst(s[1..], c, rest);
      assert all[1..] == s[1..] + ([c] + rest) && [s[0]] + s[1..] == s;
      assert ([s[1..]] + Split(rest, c))[1..] == Split(rest, c);
    }
  }

  /** Splitting undoes joining, of a list that is not empty and of parts without the separator. */
  lemma {:induction false} SplitOfJoin(parts: seq<string>, c: char)
    requires parts != [] && forall k :: 0 <= k < |parts| ==> c !in parts[k]
    ensures Split(Join(parts, c), c) == parts
  {
    if |parts| == 1 {
      SplitOne(parts[0], c);
    } else {
      SplitOfJoin(parts[1..], c);
      SplitFirst(parts[0], c, Join(parts[1..], c));
    }
  }

  lemma {:induction false} RemoveAbsent(s: string, c: char)
    requires c !in s
    ensures Remove(s, c) == s
  {
    if s != "" {
      RemoveAbsent(s[1..], c);
    }
  }

  lemma {:induction false} RemoveAppend(s: string, t: string, c: char)
    ensures Remove(s + t, c) == Remove(s, c) + Remove(t, c)
  {
    if s == "" {
      assert s + t == t;
    } else {
      assert (s + t)[1..] == s[1..] + t;
      RemoveAppend(s[1..], t, c);
    }
  }

  lemma SplitAttributes(head: string, attrs: seq<string>)
    requires ';' !in head
    ensures Split(head + Attributes(attrs), ';')[0] == head
  {
    if attrs == [] {
      assert head + Attributes(attrs) == head;
      SplitOne(head, ';');
    } else {
      var rest := attrs[0] + Attributes(attrs[1..]);
      assert Attributes(attrs) == [';'] + rest;
      SplitFirst(head, ';', rest);
    }
  }

  lemma Unbracketed(path: string)
    requires '<' !in path && '>' !in path
    ensures Remove(Remove("<" + path + ">", '<'), '>') == path
  {
    var open := path + ">";
    assert "<" + path + ">" == "<" + open && ("<" + open)[1..] == open;
    RemoveAbsent(open, '<');
    assert Remove("<" + open, '<') == open;
    RemoveAppend(path, ">", '>');
    RemoveAbsent(path, '>');
    assert Remove(">", '>') == "";
  }

  lemma PathReadsBack(link: Link)
    requires link.Plain()
    ensures PathOf(link.Text()) == link.path
  {
    SplitAttributes("<" + link.path + ">", link.attrs);
    Unbracketed(link.path);
  }

  lemma {:induction false} NoComma(attrs: seq<string>)
    requires forall k :: 0 <= k < |attrs| ==> ',' !in attrs[k]
    ensures ',' !in Attributes(attrs)
  {
    if attrs != [] {
      NoComma(attrs[1..]);
    }
  }

  lemma CoreIsHeld(text: string)
    ensures IsCore(text) <==> Holds(text, "well-known/core")
  {
    var word := "well-known/core";
    if Holds(text, word) {
      var i: nat :| HoldsAt(text, word, i);
      assert Wire.OccursAt(word, text, i);
    }
    if IsCore(text) {
      var i: nat :| i <= |text| && Wire.OccursAt(word, text, i);
      assert HoldsAt(text, word, i);
    }
  }

  lemma {:induction false} TextsReadBack(links: seq<Link>)
    requires forall k :: 0 <= k < |links| ==> links[k].Plain()
    ensures |Texts(links)| == |links| && forall k :: 0 <= k < |links| ==> ',' !in Texts(links)[k]
    ensures Paths(Texts(links)) == Offered(links)
  {
    if links != [] {
      NoComma(links[0].attrs);
      PathReadsBack(links[0]);
      CoreIsHeld(links[0].Text());
      TextsReadBack(links[1..]);
      assert Texts(links)[1..] == Texts(links[1..]);
    }
  }

  /** Discovery finds exactly the paths written, in order, less the description's own, wherever blanks
      are put in the payload; except that a node that offers nothing is asked for the empty path. */
  lemma DiscoveryInverts(links: seq<Link>, payload: string)
    requires forall k :: 0 <= k < |links| ==> links[k].Plain()
    requires Remove(payload, ' ') == Join(Texts(links), ',')
    ensures Discovered(payload) == if links == [] then [""] else Offered(links)
  {
    if links == [] {
      NothingIsOnePath();
    } else {
      TextsReadBack(links);
      SplitOfJoin(Texts(links), ',');
    }
  }

  /** A word without the character `c` that stands in `a + [c] + b` stands in one of them. */
  lemma HeldOnOneSide(a: string, c: char, b: string, word: string)
    requires c !in word && word != "" && Holds(a + ([c] + b), word)
    ensures Holds(a, word) || Holds(b, word)
  {
    var text, n := a + ([c] + b), |word|;
    var i: nat :| HoldsAt(text, word, i);
    assert text[|a|] == c;
    if i + n <= |a| {
      assert HoldsAt(a, word, i) by {
        assert a[i..i + n] == text[i..i + n];
      }
    } else if i > |a| {
      var k: nat := i - |a| - 1;
      assert HoldsAt(b, word, k) by {
        assert b[k..k + n] == text[i..i + n];
      }
    } else {
      assert false;
    }
  }

  lemma NotInEmpty(word: string)
    requires word != ""
    ensures !Holds("", word)
  {
  }

  lemma {:induction false} HeldByAttribute(head: string, attrs: seq<string>, word: string)
    requires word != "" && ';' !in word && Holds(head + Attributes(attrs), word)
    ensures Holds(head, word) || exists k :: 0 <= k < |attrs| && Holds(attrs[k], word)
    decreases |attrs|
  {
    if attrs == [] {
      assert head + Attributes(attrs) == head;
    } else {
      assert Attributes(attrs) == [';'] + (attrs[0] + Attributes(attrs[1..]));
      HeldOnOneSide(head, ';', attrs[0] + Attributes(attrs[1..]), word);
      if !Holds(head, word) {
        HeldByAttribute(attrs[0], attrs[1..], word);
        if !Holds(attrs[0], word) {
          var k :| 0 <= k < |attrs[1..]| && Holds(attrs[1..][k], word);
          assert attrs[k + 1] == attrs[1..][k];
        }
      }
    }
  }

  /** A word without brackets and semicolon that stands in a link stands in its path or in an attribute. */
  lemma HeldByPart(link: Link, word: string)
    requires word != "" && (forall c :: c in word ==> c !in "<>;") && Holds(link.Text(), word)
    ensures Holds(link.path, word) || exists k :: 0 <= k < |link.attrs| && Holds(link.attrs[k], word)
  {
    HeldByAttribute("<" + link.path + ">", link.attrs, word);
    if Holds("<" + link.path + ">", word) {
      assert "<" + link.path + ">" == "" + (['<'] + (link.path + ">"));
      HeldOnOneSide("", '<', link.path + ">", word);
      NotInEmpty(word);
      assert link.path + ">" == link.path + (['>'] + "");
      HeldOnOneSide(link.path, '>', "", word);
    }
  }

  /** The link says nowhere that it is the description. */
  ghost predicate Ordinary(link: Link) {
    !Holds(link.path, "well-known/core") && forall k :: 0 <= k < |link.attrs| ==> !Holds(link.attrs[k], "well-known/core")
  }

  lemma OrdinaryText(link: Link)
    requires Ordinary(link)
    ensures !Holds(link.Text(), "well-known/core")
  {
    if Holds(link.Text(), "well-known/core") {
      HeldByPart(link, "well-known/core");
    }
  }

  function AllPaths(links: seq<Link>): seq<string> {
    if links == [] then [] else [links[0].path] + AllPaths(links[1..])
  }

  lemma {:induction false} OrdinaryIsOffered(links: seq<Link>)
    requires forall k :: 0 <= k < |links| ==> Ordinary(links[k])
    ensures Offered(links) == AllPaths(links)
  {
    if links != [] {
      OrdinaryText(links[0]);
      OrdinaryIsOffered(links[1..]);
    }
  }

  /** Links that nowhere mention the description are all discovered, in order. */
  lemma OrdinaryIsDiscovered(links: seq<Link>, payload: string)
    requires links != [] && forall k :: 0 <= k < |links| ==> links[k].Plain() && Ordinary(links[k])
    requires Remove(payload, ' ') == Join(Texts(links), ',')
    ensures Discovered(payload) == AllPaths(links)
  {
    DiscoveryInverts(links, payload);
    OrdinaryIsOffered(links);
  }

  lemma NothingIsOnePath()
    ensures Paths(Split("", ',')) == [""]
  {
    assert Split("", ';') == [""];
    assert Remove("", '<') == "" && Remove("", '>') == "";
    assert Split("", ',') == [""];
    assert !Wire.OccursAt("well-known/core", "", 0);
  }
}
