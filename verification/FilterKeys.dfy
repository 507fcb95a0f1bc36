/** internal/events/submanager.go: when the key joined from the parts of a filter tells it from all others that can
    arrive. */
module FilterKeys {
  import opened Registry

  // --- what can arrive ---

  predicate IsBlockType(t: string) { t == "tx" || t == "config" }

  // AddSubscription refuses all others.
  predicate Admitted(s: SubInfo) { s.channel != "" && (s.blockType == "" || IsBlockType(s.blockType)) }

  predicate Arrives(s: SubInfo) {
    s.channel != "" && IsBlockType(s.blockType) && (s.chaincode != "" ==> s.eventFilter != "")
  }

  // Whatever is admitted arrives once the defaults are filled in, and whatever arrives can be asked for.
  lemma AdmittedArrives(s: SubInfo, id: string)
    ensures Admitted(s) ==> Arrives(SubDefaults(s, id))
    ensures Arrives(s) ==> Admitted(s) && SameFilter(SubDefaults(s, id), s)
  {
  }

  // --- joined strings ---

  function Join(a: string, b: string): string { a + "-" + b }

  lemma KeyParts(s: SubInfo)
    ensures CompositeKey(s) == Join(Join(s.channel, s.chaincode), Join(s.blockType, s.eventFilter))
  {
  }

  lemma Rejoin(a: string, b: string, c: string)
    ensures Join(Join(a, b), c) == Join(a, Join(b, c))
  {
    assert a + "-" + b + "-" + c == a + "-" + (b + "-" + c);
  }

  // Two ways to cut one string: the longer first part begins with the shorter one.
  lemma Nested(x: string, r: string, y: string, t: string) returns (m: string)
    requires Join(x, r) == Join(y, t) && |x| < |y|
    ensures y == Join(x, m) && r == Join(m, t)
  {
    m := y[|x| + 1..];
    assert y == Join(y, t)[..|y|];
    assert y[|x|] == Join(x, r)[|x|] == '-';
    assert x == Join(x, r)[..|x|] == y[..|x|];
    assert y == x + [y[|x|]] + y[|x| + 1..];
    Rejoin(x, m, t);
    SameRest(x, r, Join(m, t));
  }

  lemma SameRest(x: string, r: string, t: string)
    requires Join(x, r) == Join(x, t)
    ensures r == t
  {
    assert r == Join(x, r)[|x| + 1..] && t == Join(x, t)[|x| + 1..];
  }

  lemma SameLength(x: string, r: string, y: string, t: string)
    requires Join(x, r) == Join(y, t) && |x| == |y|
    ensures x == y && r == t
  {
    assert x == Join(x, r)[..|x|] && y == Join(y, t)[..|y|];
    SameRest(x, r, t);
  }

  lemma HasDash(x: string, m: string)
    ensures '-' in Join(x, m)
  {
    assert Join(x, m)[|x|] == '-';
  }

  // A part without a dash ends at the first one.
  lemma FirstDash(x: string, r: string, y: string, t: string)
    requires Join(x, r) == Join(y, t) && '-' !in x && '-' !in y
    ensures x == y && r == t
  {
    if |x| < |y| {
      var m := Nested(x, r, y, t);
      HasDash(x, m);
    } else if |y| < |x| {
      var m := Nested(y, t, x, r);
      HasDash(y, m);
    } else {
      SameLength(x, r, y, t);
    }
  }

  lemma PlainType(t: string)
    requires IsBlockType(t)
    ensures t != "" && '-' !in t
  {
  }

  // --- the four ways another filter can have the same key ---

  // A part is cut at a dash and lends the rest to its neighbour: the chaincode to the channel,
  predicate ChaincodeCut(s: SubInfo) { '-' in s.chaincode }

  // or the channel, past its first character, to the chaincode, if that may be filled;
  predicate ChannelCut(s: SubInfo) { s.eventFilter != "" && exists i :: 0 < i < |s.channel| && s.channel[i] == '-' }

  // or a block type stands further left, inside the channel,
  ghost predicate TypeInChannel(s: SubInfo, u: string, v: string, t: string, w: string) {
    u != "" && IsBlockType(t) && (s.channel == Join(Join(u, v), t) || s.channel == Join(Join(u, v), Join(t, w)))
  }

  // or further right, as a segment of the event filter, save its last, with something after it or nothing before it.
  ghost predicate TypeInFilter(s: SubInfo, p: string, t: string, q: string) {
    && IsBlockType(t)
    && (|| (s.eventFilter == Join(t, q) && q != "")
        || (s.eventFilter == Join(p, Join(t, q)) && (q != "" || p == "" || p[|p| - 1] == '-')))
  }

  ghost predicate Shares(s: SubInfo) {
    || ChaincodeCut(s) || ChannelCut(s)
    || (exists u, v, t, w :: TypeInChannel(s, u, v, t, w)) || (exists p, t, q :: TypeInFilter(s, p, t, q))
  }

  // --- a filter that shares its key ---

  lemma CutAt(s: string, i: nat)
    requires i < |s| && s[i] == '-'
    ensures s == Join(s[..i], s[i + 1..])
  {
  }

  lemma CutChaincode(a: SubInfo, x: string, y: string) returns (b: SubInfo)
    requires Arrives(a) && a.chaincode == Join(x, y)
    ensures Arrives(b) && CompositeKey(b) == CompositeKey(a) && !SameFilter(a, b)
  {
    b := a.(channel := Join(a.channel, x), chaincode := y);
    Rejoin(a.channel, x, y);
    KeyParts(a);
    KeyParts(b);
  }

  lemma CutChannel(a: SubInfo, x: string, y: string) returns (b: SubInfo)
    requires Arrives(a) && a.channel == Join(x, y) && x != "" && a.eventFilter != ""
    ensures Arrives(b) && CompositeKey(b) == CompositeKey(a) && !SameFilter(a, b)
  {
    b := a.(channel := x, chaincode := Join(y, a.chaincode));
    Rejoin(x, y, a.chaincode);
    KeyParts(a);
    KeyParts(b);
  }

  lemma LeftType(a: SubInfo, u: string, v: string, t: string, rest: string) returns (b: SubInfo)
    requires u != "" && IsBlockType(t) && rest != "" && |u| < |a.channel|
    requires CompositeKey(a) == Join(Join(u, v), Join(t, rest))
    ensures Arrives(b) && CompositeKey(b) == CompositeKey(a) && !SameFilter(a, b)
  {
    b := a.(channel := u, chaincode := v, blockType := t, eventFilter := rest);
    KeyParts(b);
  }

  lemma CutTypeInChannel(a: SubInfo, u: string, v: string, t: string, w: string) returns (b: SubInfo)
    requires TypeInChannel(a, u, v, t, w)
    ensures Arrives(b) && CompositeKey(b) == CompositeKey(a) && !SameFilter(a, b)
  {
    var end := Join(a.blockType, a.eventFilter);
    KeyParts(a);
    if a.channel == Join(Join(u, v), t) {
      Rejoin(Join(Join(u, v), t), a.chaincode, end);
      Rejoin(Join(u, v), t, Join(a.chaincode, end));
      b := LeftType(a, u, v, t, Join(a.chaincode, end));
    } else {
      Rejoin(Join(Join(u, v), Join(t, w)), a.chaincode, end);
      Rejoin(Join(u, v), Join(t, w), Join(a.chaincode, end));
      Rejoin(t, w, Join(a.chaincode, end));
      b := LeftType(a, u, v, t, Join(w, Join(a.chaincode, end)));
    }
  }

  lemma RightType(a: SubInfo, channel: string, chaincode: string, t: string, q: string) returns (b: SubInfo)
    requires channel != "" && IsBlockType(t) && (chaincode != "" ==> q != "")
    requires (channel != a.channel || chaincode != a.chaincode)
    requires CompositeKey(a) == Join(Join(channel, chaincode), Join(t, q))
    ensures Arrives(b) && CompositeKey(b) == CompositeKey(a) && !SameFilter(a, b)
  {
    b := a.(channel := channel, chaincode := chaincode, blockType := t, eventFilter := q);
    KeyParts(b);
  }

  lemma FirstSegmentType(a: SubInfo, t: string, q: string) returns (b: SubInfo)
    requires Arrives(a) && IsBlockType(t) && a.eventFilter == Join(t, q) && q != ""
    ensures Arrives(b) && CompositeKey(b) == CompositeKey(a) && !SameFilter(a, b)
  {
    var head := Join(a.channel, a.chaincode);
    KeyParts(a);
    Rejoin(head, a.blockType, Join(t, q));
    Rejoin(a.channel, a.chaincode, a.blockType);
    b := RightType(a, a.channel, Join(a.chaincode, a.blockType), t, q);
  }

  lemma LaterSegmentType(a: SubInfo, p: string, t: string, q: string) returns (b: SubInfo)
    requires Arrives(a) && IsBlockType(t) && a.eventFilter == Join(p, Join(t, q))
    requires (q != "" || p == "" || p[|p| - 1] == '-')
    ensures Arrives(b) && CompositeKey(b) == CompositeKey(a) && !SameFilter(a, b)
  {
    var head := Join(Join(a.channel, a.chaincode), a.blockType);
    KeyParts(a);
    Rejoin(Join(a.channel, a.chaincode), a.blockType, Join(p, Join(t, q)));
    Rejoin(head, p, Join(t, q));
    if q != "" {
      Rejoin(a.channel, a.chaincode, a.blockType);
      Rejoin(a.channel, Join(a.chaincode, a.blockType), p);
      b := RightType(a, a.channel, Join(Join(a.chaincode, a.blockType), p), t, q);
    } else if p == "" {
      b := RightType(a, head, "", t, q);
    } else {
      CutAt(p, |p| - 1);
      Rejoin(head, p[..|p| - 1], "");
      b := RightType(a, Join(head, p[..|p| - 1]), "", t, q);
    }
  }

  lemma SharedKey(a: SubInfo) returns (b: SubInfo)
    requires Arrives(a) && Shares(a)
    ensures Arrives(b) && CompositeKey(b) == CompositeKey(a) && !SameFilter(a, b)
  {
    if ChaincodeCut(a) {
      var i :| 0 <= i < |a.chaincode| && a.chaincode[i] == '-';
      CutAt(a.chaincode, i);
      b := CutChaincode(a, a.chaincode[..i], a.chaincode[i + 1..]);
    } else if ChannelCut(a) {
      var i :| 0 < i < |a.channel| && a.channel[i] == '-';
      CutAt(a.channel, i);
      b := CutChannel(a, a.channel[..i], a.channel[i + 1..]);
    } else if u, v, t, w :| TypeInChannel(a, u, v, t, w) {
      b := CutTypeInChannel(a, u, v, t, w);
    } else {
      var p, t, q :| TypeInFilter(a, p, t, q);
      if a.eventFilter == Join(t, q) && q != "" {
        b := FirstSegmentType(a, t, q);
      } else {
        b := LaterSegmentType(a, p, t, q);
      }
    }
  }

  // --- and one that does not ---

  // The block types stand at the same place.
  lemma SameTypePlace(a: SubInfo, b: SubInfo)
    requires Arrives(a) && Arrives(b) && !SameFilter(a, b)
    requires Join(a.channel, a.chaincode) == Join(b.channel, b.chaincode)
    requires a.blockType == b.blockType && a.eventFilter == b.eventFilter
    ensures Shares(a)
  {
    if |b.channel| < |a.channel| {
      var m := Nested(b.channel, b.chaincode, a.channel, a.chaincode);
      assert a.channel[|b.channel|] == '-';
      assert ChannelCut(a);
    } else if |a.channel| < |b.channel| {
      var m := Nested(a.channel, a.chaincode, b.channel, b.chaincode);
      HasDash(m, b.chaincode);
      assert ChaincodeCut(a);
    } else {
      SameLength(a.channel, a.chaincode, b.channel, b.chaincode);
    }
  }

  // Further left in `b`.
  lemma TypeFurtherLeft(a: SubInfo, b: SubInfo, m: string)
    requires Arrives(a) && Arrives(b)
    requires Join(a.channel, a.chaincode) == Join(Join(b.channel, b.chaincode), m)
    requires Join(b.blockType, b.eventFilter) == Join(m, Join(a.blockType, a.eventFilter))
    ensures Shares(a)
  {
    var head, end := Join(b.channel, b.chaincode), Join(a.blockType, a.eventFilter);
    PlainType(b.blockType);
    if |a.channel| < |head| {
      var m' := Nested(a.channel, a.chaincode, head, m);
      HasDash(m', m);
      assert ChaincodeCut(a);
    } else if |a.channel| == |head| {
      SameLength(a.channel, a.chaincode, head, m);
      assert a.channel[|b.channel|] == '-';
      assert a.eventFilter != "" by {
        if m == "" { FirstDash(b.blockType, b.eventFilter, m, end); }
      }
      assert ChannelCut(a);
    } else {
      var m' := Nested(head, m, a.channel, a.chaincode);
      Rejoin(m', a.chaincode, end);
      var w := TypeFirst(b.blockType, b.eventFilter, m', Join(a.chaincode, end));
      assert TypeInChannel(a, b.channel, b.chaincode, b.blockType, w);
    }
  }

  // A block type at the start of a joined string is its first part, or starts it.
  lemma TypeFirst(t: string, r: string, x: string, rest: string) returns (w: string)
    requires IsBlockType(t) && Join(t, r) == Join(x, rest)
    ensures x == t || x == Join(t, w)
  {
    PlainType(t);
    w := "";
    if |t| < |x| {
      w := Nested(t, r, x, rest);
    } else if |x| < |t| {
      var m := Nested(x, rest, t, r);
      HasDash(x, m);
    } else {
      SameLength(t, r, x, rest);
    }
  }

  // Further right in `b`.
  lemma TypeFurtherRight(a: SubInfo, b: SubInfo, m: string)
    requires Arrives(a) && Arrives(b)
    requires Join(b.channel, b.chaincode) == Join(Join(a.channel, a.chaincode), m)
    requires Join(a.blockType, a.eventFilter) == Join(m, Join(b.blockType, b.eventFilter))
    ensures Shares(a)
  {
    var t, q := b.blockType, b.eventFilter;
    PlainType(a.blockType);
    if |m| < |a.blockType| {
      var m' := Nested(m, Join(t, q), a.blockType, a.eventFilter);
      HasDash(m, m');
    } else if |m| == |a.blockType| {
      SameLength(m, Join(t, q), a.blockType, a.eventFilter);
      if q == "" { EndsInDash(Join(a.channel, a.chaincode), m, b.channel); }
      assert TypeInFilter(a, "", t, q);
    } else {
      var p := Nested(a.blockType, a.eventFilter, m, Join(t, q));
      if q == "" {
        EndsInDash(Join(a.channel, a.chaincode), m, b.channel);
        assert p != "" ==> p[|p| - 1] == m[|m| - 1];
      }
      assert TypeInFilter(a, p, t, q);
    }
  }

  lemma EndsInDash(head: string, m: string, u: string)
    requires Join(u, "") == Join(head, m)
    ensures m == "" || m[|m| - 1] == '-'
  {
    assert Join(u, "")[|Join(u, "")| - 1] == '-';
    assert m != "" ==> Join(head, m)[|Join(head, m)| - 1] == m[|m| - 1];
  }

  lemma OtherShares(a: SubInfo, b: SubInfo)
    requires Arrives(a) && Arrives(b) && CompositeKey(a) == CompositeKey(b) && !SameFilter(a, b)
    ensures Shares(a)
  {
    var x, y := Join(a.channel, a.chaincode), Join(b.channel, b.chaincode);
    var r, t := Join(a.blockType, a.eventFilter), Join(b.blockType, b.eventFilter);
    KeyParts(a);
    KeyParts(b);
    if |x| == |y| {
      SameLength(x, r, y, t);
      PlainType(a.blockType);
      PlainType(b.blockType);
      FirstDash(a.blockType, a.eventFilter, b.blockType, b.eventFilter);
      SameTypePlace(a, b);
    } else if |y| < |x| {
      var m := Nested(y, t, x, r);
      TypeFurtherLeft(a, b, m);
    } else {
      var m := Nested(x, r, y, t);
      TypeFurtherRight(a, b, m);
    }
  }

  // Among the filters that can arrive, no other shares a filter's key if and only if it cannot be cut in one of the
  // four ways.
  lemma KeyIsOwnExactly(a: SubInfo)
    requires Arrives(a)
    ensures (forall b :: Arrives(b) && CompositeKey(b) == CompositeKey(a) ==> SameFilter(a, b)) <==> !Shares(a)
  {
    if Shares(a) {
      var b := SharedKey(a);
    } else {
      forall b | Arrives(b) && CompositeKey(b) == CompositeKey(a) ensures SameFilter(a, b) {
        if !SameFilter(a, b) { OtherShares(a, b); }
      }
    }
  }

  // --- two filters without a dash before the last part ---

  predicate Plain(s: SubInfo) { '-' !in s.channel && '-' !in s.chaincode && '-' !in s.blockType }

  // Between plain filters, the joined key tells any two apart.
  lemma KeyTellsFilters(a: SubInfo, b: SubInfo)
    requires Plain(a) && Plain(b)
    ensures CompositeKey(a) == CompositeKey(b) <==> SameFilter(a, b)
  {
    if CompositeKey(a) == CompositeKey(b) {
      var restA, restB := Join(a.blockType, a.eventFilter), Join(b.blockType, b.eventFilter);
      KeyParts(a);
      KeyParts(b);
      Rejoin(a.channel, a.chaincode, restA);
      Rejoin(b.channel, b.chaincode, restB);
      FirstDash(a.channel, Join(a.chaincode, restA), b.channel, Join(b.chaincode, restB));
      FirstDash(a.chaincode, restA, b.chaincode, restB);
      FirstDash(a.blockType, a.eventFilter, b.blockType, b.eventFilter);
    }
  }
}
