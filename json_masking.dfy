/**
 * The JSON field masker: every property whose full Newtonsoft path (`user.password`,
 * `[0].token`, `items[2].secret`) matches one of the blacklist's wildcard patterns has
 * its value replaced by the mask text. A pattern is the anchored, case-insensitive
 * regular expression in which only `*` is special (it stands for any run of characters).
 *
 * A parsed document is a value of `Json`. The source walks a Newtonsoft `JToken` tree and
 * assigns `prop.Value = mask` in place; each token there has exactly one parent, so the
 * walk is modelled as a method that returns the rewritten tree.
 */
module JsonMasking {
  import opened Wrappers
  import opened Text

  datatype Json =
    | JNull
    | JBool(b: bool)
    | JNumber(n: int)
    | JString(s: string)
    | JArray(items: seq<Json>)
    | JObject(props: seq<Property>)

  /** A `JProperty`: a name and the value it holds. */
  datatype Property = Property(name: string, value: Json)

  predicate IsContainer(t: Json)
  {
    t.JArray? || t.JObject?
  }

  // ---------------------------------------------------------------------------
  // Token paths (`JToken.Path`)
  // ---------------------------------------------------------------------------

  /** Path of the property `name` of the object whose path is `parent`. */
  function PropertyPath(parent: string, name: string): string
  {
    if parent == [] then name else parent + "." + name
  }

  /** Path of the `i`-th element of the array whose path is `parent`. */
  function ItemPath(parent: string, i: nat): string
  {
    parent + "[" + NatToString(i) + "]"
  }

  // ---------------------------------------------------------------------------
  // Wildcard patterns (`WildCardToRegular` + `Regex.IsMatch`, case-insensitive)
  // ---------------------------------------------------------------------------

  /** `text` matches the whole of `pattern`, where `*` matches any run of characters. */
  predicate GlobMatch(pattern: string, text: string)
    decreases |pattern| + |text|
  {
    if pattern == [] then text == []
    else if pattern[0] == '*' then
      GlobMatch(pattern[1..], text) || (text != [] && GlobMatch(pattern, text[1..]))
    else
      text != [] && SameIgnoringCase(pattern[0], text[0]) && GlobMatch(pattern[1..], text[1..])
  }

  /** `blacklist.Any(item => Regex.IsMatch(path, WildCardToRegular(item), IgnoreCase))` */
  predicate AnyMatch(blacklist: seq<string>, path: string)
  {
    exists k :: 0 <= k < |blacklist| && GlobMatch(blacklist[k], path)
  }

  /** Number of `*` wildcards in a pattern. */
  function Stars(pattern: string): nat
  {
    if pattern == [] then 0
    else (if pattern[0] == '*' then 1 else 0) + Stars(pattern[1..])
  }

  /** The pattern with its `i`-th wildcard replaced by `fillers[i]`. */
  function Fill(pattern: string, fillers: seq<string>): string
    requires |fillers| == Stars(pattern)
  {
    if pattern == [] then []
    else if pattern[0] == '*' then fillers[0] + Fill(pattern[1..], fillers[1..])
    else [pattern[0]] + Fill(pattern[1..], fillers)
  }

  /**
   * Reference reading of a wildcard pattern: the text is, ignoring case, the pattern
   * with each `*` replaced by some string.
   */
  ghost predicate Denotes(pattern: string, text: string)
  {
    exists fillers: seq<string> {:trigger Fill(pattern, fillers)} ::
      |fillers| == Stars(pattern) && EqualIgnoringCase(Fill(pattern, fillers), text)
  }

  lemma {:induction false} GlobMatchSkip(pattern: string, text: string, k: nat)
    requires pattern != [] && pattern[0] == '*'
    requires k <= |text| && GlobMatch(pattern[1..], text[k..])
    ensures GlobMatch(pattern, text)
    decreases k
  {
    if k > 0 {
      assert text[1..][k - 1..] == text[k..];
      GlobMatchSkip(pattern, text[1..], k - 1);
    }
  }

  /** Every text the pattern denotes is matched. */
  lemma {:induction false} GlobMatchComplete(pattern: string, fillers: seq<string>, text: string)
    requires |fillers| == Stars(pattern)
    requires EqualIgnoringCase(Fill(pattern, fillers), text)
    ensures GlobMatch(pattern, text)
    decreases |pattern|
  {
    if pattern == [] {
    } else if pattern[0] == '*' {
      var w := fillers[0];
      var rest := Fill(pattern[1..], fillers[1..]);
      assert Fill(pattern, fillers) == w + rest;
      assert EqualIgnoringCase(rest, text[|w|..]) by {
        forall i | 0 <= i < |rest| ensures SameIgnoringCase(rest[i], text[|w|..][i]) {
          assert (w + rest)[|w| + i] == rest[i];
        }
      }
      GlobMatchComplete(pattern[1..], fillers[1..], text[|w|..]);
      GlobMatchSkip(pattern, text, |w|);
    } else {
      var rest := Fill(pattern[1..], fillers);
      assert Fill(pattern, fillers) == [pattern[0]] + rest;
      assert SameIgnoringCase(pattern[0], text[0]) by {
        assert ([pattern[0]] + rest)[0] == pattern[0];
      }
      assert EqualIgnoringCase(rest, text[1..]) by {
        forall i | 0 <= i < |rest| ensures SameIgnoringCase(rest[i], text[1..][i]) {
          assert ([pattern[0]] + rest)[1 + i] == rest[i];
        }
      }
      GlobMatchComplete(pattern[1..], fillers, text[1..]);
    }
  }

  /** Two case-blind equal strings stay so with one more case-blind equal character in front. */
  lemma ConsIgnoringCase(c: char, a: string, d: char, b: string)
    requires SameIgnoringCase(c, d) && EqualIgnoringCase(a, b)
    ensures EqualIgnoringCase([c] + a, [d] + b)
  {
    forall i | 1 <= i <= |a| ensures SameIgnoringCase(([c] + a)[i], ([d] + b)[i]) {
      assert ([c] + a)[i] == a[i - 1] && ([d] + b)[i] == b[i - 1];
    }
  }

  /** A leading `*` may stand for nothing. */
  lemma DenotesStarEmpty(pattern: string, text: string)
    requires pattern != [] && pattern[0] == '*' && Denotes(pattern[1..], text)
    ensures Denotes(pattern, text)
  {
    var f :| |f| == Stars(pattern[1..]) && EqualIgnoringCase(Fill(pattern[1..], f), text);
    var fillers := [[]] + f;
    assert fillers[1..] == f;
    assert Fill(pattern, fillers) == [] + Fill(pattern[1..], f) == Fill(pattern[1..], f);
    assert |fillers| == Stars(pattern);
  }

  /** A leading `*` may take one more character. */
  lemma DenotesStarGrow(pattern: string, text: string)
    requires pattern != [] && pattern[0] == '*' && text != [] && Denotes(pattern, text[1..])
    ensures Denotes(pattern, text)
  {
    var f :| |f| == Stars(pattern) && EqualIgnoringCase(Fill(pattern, f), text[1..]);
    var fillers := [[text[0]] + f[0]] + f[1..];
    assert fillers[1..] == f[1..];
    assert Fill(pattern, f) == f[0] + Fill(pattern[1..], f[1..]);
    assert Fill(pattern, fillers) == [text[0]] + Fill(pattern, f);
    ConsIgnoringCase(text[0], Fill(pattern, f), text[0], text[1..]);
    assert text == [text[0]] + text[1..];
    assert |fillers| == Stars(pattern);
  }

  /** A leading literal matches a case-blind equal character. */
  lemma DenotesLiteral(pattern: string, text: string)
    requires pattern != [] && pattern[0] != '*' && text != []
    requires SameIgnoringCase(pattern[0], text[0]) && Denotes(pattern[1..], text[1..])
    ensures Denotes(pattern, text)
  {
    var f :| |f| == Stars(pattern[1..]) && EqualIgnoringCase(Fill(pattern[1..], f), text[1..]);
    assert Fill(pattern, f) == [pattern[0]] + Fill(pattern[1..], f);
    ConsIgnoringCase(pattern[0], Fill(pattern[1..], f), text[0], text[1..]);
    assert text == [text[0]] + text[1..];
    assert |f| == Stars(pattern);
  }

  /** Every text the pattern matches is denoted by it. */
  lemma {:induction false} GlobMatchSound(pattern: string, text: string)
    requires GlobMatch(pattern, text)
    ensures Denotes(pattern, text)
    decreases |pattern| + |text|
  {
    if pattern == [] {
      var none: seq<string> := [];
      assert |none| == Stars(pattern) && EqualIgnoringCase(Fill(pattern, none), text);
    } else if pattern[0] == '*' {
      if GlobMatch(pattern[1..], text) {
        GlobMatchSound(pattern[1..], text);
        DenotesStarEmpty(pattern, text);
      } else {
        GlobMatchSound(pattern, text[1..]);
        DenotesStarGrow(pattern, text);
      }
    } else {
      GlobMatchSound(pattern[1..], text[1..]);
      DenotesLiteral(pattern, text);
    }
  }

  /** A pattern matches exactly the texts it denotes. */
  lemma GlobMatchIff(pattern: string, text: string)
    ensures GlobMatch(pattern, text) <==> Denotes(pattern, text)
  {
    if GlobMatch(pattern, text) {
      GlobMatchSound(pattern, text);
    }
    if Denotes(pattern, text) {
      var f :| |f| == Stars(pattern) && EqualIgnoringCase(Fill(pattern, f), text);
      GlobMatchComplete(pattern, f, text);
    }
  }

  /** Every character that is not `*` must be present: a match is never shorter. */
  lemma {:induction false} GlobMatchLength(pattern: string, text: string)
    requires GlobMatch(pattern, text)
    ensures |text| >= |pattern| - Stars(pattern)
    decreases |pattern| + |text|
  {
    if pattern == [] {
    } else if pattern[0] == '*' {
      if GlobMatch(pattern[1..], text) {
        GlobMatchLength(pattern[1..], text);
      } else {
        GlobMatchLength(pattern, text[1..]);
      }
    } else {
      GlobMatchLength(pattern[1..], text[1..]);
    }
  }

  lemma {:induction false} StarsConcat(a: string, b: string)
    ensures Stars(a + b) == Stars(a) + Stars(b)
    decreases |a|
  {
    if a == [] {
      assert a + b == b;
    } else {
      assert (a + b)[0] == a[0];
      assert (a + b)[1..] == a[1..] + b;
      StarsConcat(a[1..], b);
    }
  }

  lemma {:induction false} FillLiteralPrefix(x: string, q: string, fillers: seq<string>)
    requires '*' !in x && |fillers| == Stars(q)
    ensures Stars(x + q) == Stars(q)
    ensures Fill(x + q, fillers) == x + Fill(q, fillers)
    decreases |x|
  {
    if x == [] {
      assert x + q == q;
    } else {
      var y := x + q;
      assert y[0] == x[0] && x[0] in x;
      assert y[1..] == x[1..] + q;
      FillLiteralPrefix(x[1..], q, fillers);
      assert Stars(y) == Stars(y[1..]);
      assert Fill(y, fillers) == [x[0]] + Fill(y[1..], fillers);
      assert [x[0]] + (x[1..] + Fill(q, fillers)) == x + Fill(q, fillers);
    }
  }

  /**
   * The default patterns have the shape `*word*`: such a pattern matches a path exactly
   * when the word occurs in it, ignoring case.
   */
  lemma InfixPatternMatches(x: string, text: string, i: nat)
    requires '*' !in x
    requires i + |x| <= |text| && EqualIgnoringCase(x, text[i..i + |x|])
    ensures GlobMatch("*" + x + "*", text)
  {
    var star: string := "*";
    var head, tail := text[..i], text[i + |x|..];
    var pattern := star + (x + star);
    assert "*" + x + "*" == pattern;
    assert Fill(star, [tail]) == tail by {
      assert star[1..] == [];
    }
    FillLiteralPrefix(x, star, [tail]);
    assert Stars(star) == 1;
    assert pattern[0] == '*' && pattern[1..] == x + star;
    var fillers := [head, tail];
    assert fillers[1..] == [tail];
    var filled := Fill(pattern, fillers);
    assert filled == head + (x + tail);
    assert EqualIgnoringCase(filled, text) by {
      forall j | 0 <= j < |text| ensures SameIgnoringCase(filled[j], text[j]) {
        if j < i {
          assert filled[j] == head[j];
        } else if j < i + |x| {
          assert filled[j] == x[j - i];
          assert text[i..i + |x|][j - i] == text[j];
        } else {
          assert filled[j] == tail[j - i - |x|];
        }
      }
    }
    GlobMatchComplete(pattern, fillers, text);
  }

  /** A pattern `*word*` never matches a path shorter than the word. */
  lemma InfixPatternNeedsRoom(x: string, text: string)
    requires '*' !in x && |text| < |x|
    ensures !GlobMatch("*" + x + "*", text)
  {
    var star: string := "*";
    FillLiteralPrefix(x, star, [[]]);
    assert Stars(star) == 1;
    StarsConcat(star, x + star);
    assert star + x + star == star + (x + star);
    if GlobMatch(star + x + star, text) {
      GlobMatchLength(star + x + star, text);
    }
  }

  // ---------------------------------------------------------------------------
  // The masked tree
  // ---------------------------------------------------------------------------

  /**
   * The tree `MaskFieldsFromJToken` leaves behind for the token `t` whose path is `path`:
   * a property whose path matches holds the mask string, every other container child is
   * masked in turn, and scalars stay as they are.
   */
  function Mask(t: Json, path: string, blacklist: seq<string>, mask: string): (r: Json)
    ensures !IsContainer(t) ==> r == t
    ensures t.JArray? ==> r.JArray? && |r.items| == |t.items|
    ensures t.JObject? ==> r.JObject? && |r.props| == |t.props|
    ensures t.JObject? ==> forall i :: 0 <= i < |t.props| ==> r.props[i].name == t.props[i].name
    decreases t, 1
  {
    match t
    case JArray(items) =>
      JArray(seq(|items|, i requires 0 <= i < |items| => Mask(items[i], ItemPath(path, i), blacklist, mask)))
    case JObject(props) =>
      JObject(seq(|props|, i requires 0 <= i < |props| => MaskProperty(props[i], path, blacklist, mask)))
    case _ => t
  }

  /** The property `p` of the object whose path is `parent`, once masked. */
  function MaskProperty(p: Property, parent: string, blacklist: seq<string>, mask: string): (r: Property)
    ensures r.name == p.name
    decreases p, 0
  {
    var path := PropertyPath(parent, p.name);
    if AnyMatch(blacklist, path) then Property(p.name, JString(mask))
    else Property(p.name, Mask(p.value, path, blacklist, mask))
  }

  /** Masking twice with the same blacklist and mask gives the tree masking once gives. */
  lemma {:induction false} MaskIdempotent(t: Json, path: string, blacklist: seq<string>, mask: string)
    ensures Mask(Mask(t, path, blacklist, mask), path, blacklist, mask) == Mask(t, path, blacklist, mask)
    decreases t
  {
    var once := Mask(t, path, blacklist, mask);
    match t
    case JArray(items) =>
      forall i | 0 <= i < |items|
        ensures Mask(once.items[i], ItemPath(path, i), blacklist, mask) == once.items[i]
      {
        MaskIdempotent(items[i], ItemPath(path, i), blacklist, mask);
      }
    case JObject(props) =>
      forall i | 0 <= i < |props|
        ensures MaskProperty(once.props[i], path, blacklist, mask) == once.props[i]
      {
        var q := PropertyPath(path, props[i].name);
        assert once.props[i] == MaskProperty(props[i], path, blacklist, mask);
        if !AnyMatch(blacklist, q) {
          MaskIdempotent(props[i].value, q, blacklist, mask);
        }
      }
    case _ =>
  }

  /** With an empty blacklist nothing is masked. */
  lemma {:induction false} MaskEmptyBlacklist(t: Json, path: string, mask: string)
    ensures Mask(t, path, [], mask) == t
    decreases t
  {
    match t
    case JArray(items) =>
      forall i | 0 <= i < |items| ensures Mask(items[i], ItemPath(path, i), [], mask) == items[i] {
        MaskEmptyBlacklist(items[i], ItemPath(path, i), mask);
      }
    case JObject(props) =>
      forall i | 0 <= i < |props| ensures MaskProperty(props[i], path, [], mask) == props[i] {
        MaskEmptyBlacklist(props[i].value, PropertyPath(path, props[i].name), mask);
      }
    case _ =>
  }

  /** The documented example: `{"password":"abc123","user":"bob"}` under `*password*`. */
  lemma PasswordExample()
    ensures Mask(JObject([Property("password", JString("abc123")), Property("user", JString("bob"))]),
                 "", ["*password*"], "*** MASKED ***")
         == JObject([Property("password", JString("*** MASKED ***")), Property("user", JString("bob"))])
  {
    var blacklist, mask := ["*password*"], "*** MASKED ***";
    var password, user := Property("password", JString("abc123")), Property("user", JString("bob"));
    var masked := Mask(JObject([password, user]), "", blacklist, mask);
    assert masked.props == [MaskProperty(password, "", blacklist, mask), MaskProperty(user, "", blacklist, mask)];
    PasswordMatched();
    UserNotMatched();
  }

  lemma PasswordMatched()
    ensures AnyMatch(["*password*"], PropertyPath("", "password"))
  {
    assert "*password*" == "*" + "password" + "*";
    InfixPatternMatches("password", "password", 0);
    assert GlobMatch(["*password*"][0], "password");
  }

  lemma UserNotMatched()
    ensures !AnyMatch(["*password*"], PropertyPath("", "user"))
  {
    assert "*password*" == "*" + "password" + "*";
    InfixPatternNeedsRoom("password", "user");
    assert !GlobMatch(["*password*"][0], "user");
  }

  // ---------------------------------------------------------------------------
  // Locating nodes: what masking does at every depth
  // ---------------------------------------------------------------------------

  /** One step down a tree: the `index`-th property of an object, or element of an array. */
  datatype Step = Field(index: nat) | Item(index: nat)

  /** A node of a tree together with its path. */
  datatype Located = Located(node: Json, path: string)

  /** One step down from the node `t` whose path is `path`, if that step exists. */
  function Down(t: Json, path: string, s: Step): Option<Located>
  {
    match (t, s)
    case (JArray(items), Item(i)) =>
      if i < |items| then Some(Located(items[i], ItemPath(path, i))) else None
    case (JObject(props), Field(i)) =>
      if i < |props| then Some(Located(props[i].value, PropertyPath(path, props[i].name))) else None
    case _ => None
  }

  /** The node that the steps `sel` reach from `t`, with its path. */
  function Walk(t: Json, path: string, sel: seq<Step>): Option<Located>
    decreases |sel|
  {
    if sel == [] then Some(Located(t, path))
    else match Down(t, path, sel[0])
      case None => None
      case Some(next) => Walk(next.node, next.path, sel[1..])
  }

  /** The steps `sel` exist in `t` and pass through no property whose path matches. */
  predicate Unmasked(t: Json, path: string, sel: seq<Step>, blacklist: seq<string>)
    decreases |sel|
  {
    sel == [] ||
    match Down(t, path, sel[0])
    case None => false
    case Some(next) =>
      (sel[0].Field? ==> !AnyMatch(blacklist, next.path)) &&
      Unmasked(next.node, next.path, sel[1..], blacklist)
  }

  /**
   * Along a selector that meets no matching property, the masked tree has a node at the
   * same place, with the same path, and that node is the original node masked.
   */
  lemma {:induction false} WalkUnmasked(t: Json, path: string, sel: seq<Step>, blacklist: seq<string>, mask: string)
    requires Unmasked(t, path, sel, blacklist)
    ensures Walk(t, path, sel).Some?
    ensures var n := Walk(t, path, sel).value;
      Walk(Mask(t, path, blacklist, mask), path, sel) == Some(Located(Mask(n.node, n.path, blacklist, mask), n.path))
    decreases |sel|
  {
    if sel != [] {
      var next := Down(t, path, sel[0]).value;
      var r := Mask(t, path, blacklist, mask);
      match sel[0] {
        case Item(i) =>
          assert r.items[i] == Mask(t.items[i], ItemPath(path, i), blacklist, mask);
        case Field(i) =>
          assert r.props[i] == MaskProperty(t.props[i], path, blacklist, mask);
      }
      assert Down(r, path, sel[0]) == Some(Located(Mask(next.node, next.path, blacklist, mask), next.path));
      WalkUnmasked(next.node, next.path, sel[1..], blacklist, mask);
    }
  }

  lemma {:induction false} WalkAppend(t: Json, path: string, sel: seq<Step>, s: Step)
    requires Walk(t, path, sel).Some?
    ensures var n := Walk(t, path, sel).value;
      Walk(t, path, sel + [s]) == Down(n.node, n.path, s)
    decreases |sel|
  {
    if sel == [] {
      assert ([] + [s])[1..] == [];
    } else {
      var next := Down(t, path, sel[0]).value;
      assert (sel + [s])[0] == sel[0];
      assert (sel + [s])[1..] == sel[1..] + [s];
      WalkAppend(next.node, next.path, sel[1..], s);
    }
  }

  /**
   * A property whose full path matches (reached without passing a matching property)
   * holds the mask string after masking, under the same path.
   */
  lemma MaskedWhereMatched(t: Json, path: string, sel: seq<Step>, i: nat, blacklist: seq<string>, mask: string)
    requires Unmasked(t, path, sel, blacklist)
    requires Walk(t, path, sel).Some? && Walk(t, path, sel).value.node.JObject?
    requires i < |Walk(t, path, sel).value.node.props|
    requires var n := Walk(t, path, sel).value;
      AnyMatch(blacklist, PropertyPath(n.path, n.node.props[i].name))
    ensures var n := Walk(t, path, sel).value;
      Walk(Mask(t, path, blacklist, mask), path, sel + [Field(i)])
        == Some(Located(JString(mask), PropertyPath(n.path, n.node.props[i].name)))
  {
    var n := Walk(t, path, sel).value;
    WalkUnmasked(t, path, sel, blacklist, mask);
    WalkAppend(Mask(t, path, blacklist, mask), path, sel, Field(i));
  }

  /**
   * A scalar reached without passing a matching property is unchanged, and so are the
   * names and order of an object's properties and the length of an array reached so.
   */
  lemma UnmatchedKept(t: Json, path: string, sel: seq<Step>, blacklist: seq<string>, mask: string)
    requires Unmasked(t, path, sel, blacklist)
    ensures Walk(t, path, sel).Some?
    ensures var n := Walk(t, path, sel).value;
      var m := Walk(Mask(t, path, blacklist, mask), path, sel);
      && m.Some? && m.value.path == n.path
      && (!IsContainer(n.node) ==> m.value.node == n.node)
      && (n.node.JArray? ==> m.value.node.JArray? && |m.value.node.items| == |n.node.items|)
      && (n.node.JObject? ==>
            && m.value.node.JObject? && |m.value.node.props| == |n.node.props|
            && forall k :: 0 <= k < |n.node.props| ==> m.value.node.props[k].name == n.node.props[k].name)
  {
    WalkUnmasked(t, path, sel, blacklist, mask);
  }

  // ---------------------------------------------------------------------------
  // The imperative walk
  // ---------------------------------------------------------------------------

  /**
   * `MaskFieldsFromJToken`: visit every child of a container, note the properties whose
   * path matches in a remove list and recurse into every child; then give every noted
   * property the mask as its value. Non-containers are returned as they are.
   */
  method MaskFieldsFromJToken(token: Json, path: string, blacklist: seq<string>, mask: string) returns (r: Json)
    ensures r == Mask(token, path, blacklist, mask)
    decreases token, 1
  {
    match token {
      case JArray(_) =>
        r := MaskItems(token, path, blacklist, mask);
      case JObject(props) =>
        var children, removeList := CollectProperties(token, path, blacklist, mask);
        children := ReplaceMatched(props, path, blacklist, mask, children, removeList);
        r := JObject(children);
      case _ =>
        r := token;
    }
  }

  /** Lines 55-75 for an array: no element is a property, so each is only recursed into. */
  method MaskItems(token: Json, path: string, blacklist: seq<string>, mask: string) returns (r: Json)
    requires token.JArray?
    ensures r == Mask(token, path, blacklist, mask)
    decreases token, 0
  {
    var items := token.items;
    var children: seq<Json> := [];
    var i := 0;
    while i < |items|
      invariant 0 <= i <= |items|
      invariant |children| == i
      invariant forall k :: 0 <= k < i ==> children[k] == Mask(items[k], ItemPath(path, k), blacklist, mask)
    {
      var child := MaskFieldsFromJToken(items[i], ItemPath(path, i), blacklist, mask);
      children := children + [child];
      i := i + 1;
    }
    r := JArray(children);
  }

  /**
   * Lines 55-75 for an object: note each property whose path matches in `removeList`,
   * and recurse into every property's value.
   */
  method CollectProperties(token: Json, path: string, blacklist: seq<string>, mask: string)
    returns (children: seq<Property>, removeList: seq<nat>)
    requires token.JObject?
    ensures |children| == |token.props|
    ensures forall k :: 0 <= k < |children| ==>
      children[k] == Property(token.props[k].name,
                              Mask(token.props[k].value, PropertyPath(path, token.props[k].name), blacklist, mask))
    ensures forall j :: 0 <= j < |removeList| ==> removeList[j] < |children|
    ensures forall k :: 0 <= k < |children| ==>
      (k in removeList <==> AnyMatch(blacklist, PropertyPath(path, token.props[k].name)))
    decreases token, 0
  {
    var props := token.props;
    removeList, children := [], [];
    var i := 0;
    while i < |props|
      invariant 0 <= i <= |props|
      invariant |children| == i
      invariant forall k :: 0 <= k < i ==>
        children[k] == Property(props[k].name, Mask(props[k].value, PropertyPath(path, props[k].name), blacklist, mask))
      invariant forall j :: 0 <= j < |removeList| ==> removeList[j] < i
      invariant forall k :: 0 <= k < i ==> (k in removeList <==> AnyMatch(blacklist, PropertyPath(path, props[k].name)))
    {
      var propPath := PropertyPath(path, props[i].name);
      if AnyMatch(blacklist, propPath) {
        removeList := removeList + [i];
      }
      var value := MaskFieldsFromJToken(props[i].value, propPath, blacklist, mask);
      children := children + [Property(props[i].name, value)];
      i := i + 1;
    }
  }

  /** Lines 77-82: replace the value of every noted property with the mask string. */
  method ReplaceMatched(props: seq<Property>, path: string, blacklist: seq<string>, mask: string,
                        children0: seq<Property>, removeList: seq<nat>)
    returns (children: seq<Property>)
    requires |children0| == |props|
    requires forall k :: 0 <= k < |props| ==>
      children0[k] == Property(props[k].name, Mask(props[k].value, PropertyPath(path, props[k].name), blacklist, mask))
    requires forall j :: 0 <= j < |removeList| ==> removeList[j] < |props|
    requires forall k :: 0 <= k < |props| ==> (k in removeList <==> AnyMatch(blacklist, PropertyPath(path, props[k].name)))
    ensures |children| == |props|
    ensures forall k :: 0 <= k < |props| ==> children[k] == MaskProperty(props[k], path, blacklist, mask)
  {
    children := children0;
    var j := 0;
    while j < |removeList|
      invariant 0 <= j <= |removeList|
      invariant |children| == |props|
      invariant forall k :: 0 <= k < |props| ==>
        children[k] == (if k in removeList[..j] then Property(props[k].name, JString(mask)) else children0[k])
    {
      var k := removeList[j];
      assert removeList[..j + 1] == removeList[..j] + [k];
      children := children[k := Property(children[k].name, JString(mask))];
      j := j + 1;
    }
    assert removeList[..j] == removeList;
  }

  // ---------------------------------------------------------------------------
  // The entry point on text
  // ---------------------------------------------------------------------------

  datatype MaskError =
    | ArgumentNull       // the blacklist is null
    | ReaderError        // the text is not JSON (`JsonReaderException`)
    | NullDocument       // the text is the literal `null`: `ToString()` on a null object

  /** What `MaskFields` hands back. */
  datatype MaskOutcome =
    | Unchanged                    // the input text itself
    | Rewritten(document: Json)    // the text of this (masked) document
    | Failed(error: MaskError)     // an exception escapes

  /**
   * Lines 14-45 as a value: the outcome `MaskFields` reaches for `json`, given what
   * `JsonConvert.DeserializeObject` yields for it (`parsed`).
   */
  function MaskFieldsOutcome(json: Option<string>, blacklist: Option<seq<string>>, mask: string, parsed: Option<Json>): MaskOutcome
  {
    if IsNullOrWhiteSpace(json) then Unchanged
    else if blacklist.None? then Failed(ArgumentNull)
    else if blacklist.value == [] then Unchanged
    else if parsed.None? then Failed(ReaderError)
    else if parsed.value.JNull? then Failed(NullDocument)
    else Rewritten(Mask(parsed.value, "", blacklist.value, mask))
  }

  /**
   * `string.MaskFields(blacklist, mask)`. `parsed` is what `JsonConvert.DeserializeObject`
   * yields for `json` (`None` when it throws, `JNull` for the literal `null`, which it
   * returns as a null object); rendering the result as text is the JSON
   * library's and is not part of this model.
   */
  method MaskFields(json: Option<string>, blacklist: Option<seq<string>>, mask: string, parsed: Option<Json>)
    returns (r: MaskOutcome)
    ensures IsNullOrWhiteSpace(json) ==> r == Unchanged
    ensures !IsNullOrWhiteSpace(json) && blacklist.None? ==> r == Failed(ArgumentNull)
    ensures !IsNullOrWhiteSpace(json) && blacklist == Some([]) ==> r == Unchanged
    ensures !IsNullOrWhiteSpace(json) && blacklist.Some? && blacklist.value != [] ==>
      r == (match parsed
            case None => Failed(ReaderError)
            case Some(JNull) => Failed(NullDocument)
            case Some(doc) => Rewritten(Mask(doc, "", blacklist.value, mask)))
    ensures r == MaskFieldsOutcome(json, blacklist, mask, parsed)
  {
    if IsNullOrWhiteSpace(json) {
      return Unchanged;
    }
    if blacklist.None? {
      return Failed(ArgumentNull);
    }
    var patterns := blacklist.value;
    if |patterns| == 0 {
      return Unchanged;
    }
    if parsed.None? {
      return Failed(ReaderError);
    }
    var doc := parsed.value;
    match doc {
      case JNull =>
        r := Failed(NullDocument);
      case JArray(items) =>
        var masked: seq<Json> := [];
        var i := 0;
        while i < |items|
          invariant 0 <= i <= |items|
          invariant |masked| == i
          invariant forall k :: 0 <= k < i ==> masked[k] == Mask(items[k], ItemPath("", k), patterns, mask)
        {
          var token := MaskFieldsFromJToken(items[i], ItemPath("", i), patterns, mask);
          masked := masked + [token];
          i := i + 1;
        }
        r := Rewritten(JArray(masked));
      case JObject(_) =>
        var token := MaskFieldsFromJToken(doc, "", patterns, mask);
        r := Rewritten(token);
      case _ =>
        r := Rewritten(doc);
    }
  }
}
