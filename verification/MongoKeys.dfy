/** Key sanitising (`utils.py`) and the sync watermark stored under a sanitised host name (`identity.py`). */
module MongoKeys {
  import opened Wrappers

  // Python's `str.replace` for a non-empty pattern: leftmost matches, none overlapping.
  function Replace(s: string, pattern: string, subst: string): string
    requires pattern != ""
  {
    if |s| < |pattern| then s
    else if s[..|pattern|] == pattern then subst + Replace(s[|pattern|..], pattern, subst)
    else [s[0]] + Replace(s[1..], pattern, subst)
  }

  function Sanitize(s: string): string {
    Replace(Replace(s, ".", "_dot_"), "$", "_dollarsign_")
  }

  // A key, or a list of keys nested to any depth.
  datatype Key = Text(text: string) | List(keys: seq<Key>)

  function SanitizeKey(k: Key): Key {
    match k
    case Text(s) => Text(Sanitize(s))
    case List(keys) => List(SanitizeKeys(keys))
  }

  function SanitizeKeys(keys: seq<Key>): seq<Key> {
    if keys == [] then [] else [SanitizeKey(keys[0])] + SanitizeKeys(keys[1..])
  }

  // ---------------------------------------------------------------------------------------------
  // One simultaneous substitution

  function Escape(ch: char): string {
    if ch == '.' then "_dot_" else if ch == '$' then "_dollarsign_" else [ch]
  }

  function EscapeAll(s: string): string {
    if s == "" then "" else Escape(s[0]) + EscapeAll(s[1..])
  }

  lemma {:induction false} ReplaceAppends(a: string, b: string, ch: char, subst: string)
    ensures Replace(a + b, [ch], subst) == Replace(a, [ch], subst) + Replace(b, [ch], subst)
    decreases a
  {
    if a == "" {
      assert a + b == b;
    } else {
      var rest := a[1..] + b;
      assert (a + b)[..1] == [a[0]] && (a + b)[1..] == rest && a[..1] == [a[0]];
      ReplaceAppends(a[1..], b, ch, subst);
    }
  }

  lemma {:induction false} ReplaceAbsent(s: string, ch: char, subst: string)
    requires ch !in s
    ensures Replace(s, [ch], subst) == s
    decreases s
  {
    if s != "" {
      assert s[..1] == [s[0]] && s[0] != ch;
      ReplaceAbsent(s[1..], ch, subst);
      assert s == [s[0]] + s[1..];
    }
  }

  /** The two chained replacements are one simultaneous substitution, character by character. */
  lemma {:induction false} SanitizeIsSimultaneous(s: string)
    ensures Sanitize(s) == EscapeAll(s)
    decreases s
  {
    if s != "" {
      var first, rest := [s[0]], s[1..];
      assert s == first + rest;
      ReplaceAppends(first, rest, '.', "_dot_");
      ReplaceAppends(Replace(first, ".", "_dot_"), Replace(rest, ".", "_dot_"), '$', "_dollarsign_");
      SanitizeIsSimultaneous(rest);
      assert Sanitize(first) == Escape(s[0]) by {
        if s[0] == '.' {
          assert first[..1] == "." && first[1..] == "";
          assert Replace(first, ".", "_dot_") == "_dot_";
          ReplaceAbsent("_dot_", '$', "_dollarsign_");
        } else {
          ReplaceAbsent(first, '.', "_dot_");
          if s[0] == '$' {
            assert first[..1] == "$" && first[1..] == "";
          } else {
            ReplaceAbsent(first, '$', "_dollarsign_");
          }
        }
      }
    }
  }

  predicate Safe(s: string) {
    '.' !in s && '$' !in s
  }

  lemma {:induction false} EscapeAllIsSafe(s: string)
    ensures Safe(EscapeAll(s))
    decreases s
  {
    if s != "" {
      EscapeAllIsSafe(s[1..]);
    }
  }

  /** A sanitised string has no '.' and no '$', and sanitising changes exactly the strings that have one; so it
      is idempotent. */
  lemma SanitizeIsSafe(s: string)
    ensures Safe(Sanitize(s))
    ensures Safe(s) <==> Sanitize(s) == s
    ensures Sanitize(Sanitize(s)) == Sanitize(s)
  {
    SanitizeIsSimultaneous(s);
    EscapeAllIsSafe(s);
    if Safe(s) {
      SafeUnchanged(s);
    }
    SafeUnchanged(Sanitize(s));
  }

  lemma SafeUnchanged(s: string)
    requires Safe(s)
    ensures Sanitize(s) == s
  {
    ReplaceAbsent(s, '.', "_dot_");
    ReplaceAbsent(s, '$', "_dollarsign_");
  }

  predicate SafeKey(k: Key) {
    match k
    case Text(s) => Safe(s)
    case List(keys) => forall i :: 0 <= i < |keys| ==> SafeKey(keys[i])
  }

  // Two keys nest alike.
  predicate SameShape(a: Key, b: Key)
    decreases a
  {
    match a
    case Text(_) => b.Text?
    case List(keys) =>
      b.List? && |keys| == |b.keys| && forall i :: 0 <= i < |keys| ==> SameShape(keys[i], b.keys[i])
  }

  lemma {:induction false} KeysByIndex(keys: seq<Key>)
    ensures |SanitizeKeys(keys)| == |keys|
    ensures forall i :: 0 <= i < |keys| ==> SanitizeKeys(keys)[i] == SanitizeKey(keys[i])
    decreases keys
  {
    if keys != [] {
      KeysByIndex(keys[1..]);
    }
  }

  /** On arbitrarily nested lists: the result is safe throughout, nests like the input, and is not changed by
      sanitising it again. */
  lemma {:induction false} SanitizeKeyIsSafe(k: Key)
    ensures SafeKey(SanitizeKey(k)) && SameShape(k, SanitizeKey(k))
    ensures SanitizeKey(SanitizeKey(k)) == SanitizeKey(k)
    decreases k
  {
    match k
    case Text(s) => SanitizeIsSafe(s);
    case List(keys) =>
      var clean := SanitizeKeys(keys);
      KeysByIndex(keys);
      KeysByIndex(clean);
      forall i | 0 <= i < |keys|
        ensures SafeKey(clean[i]) && SameShape(keys[i], clean[i]) && SanitizeKey(clean[i]) == clean[i]
      {
        SanitizeKeyIsSafe(keys[i]);
      }
      assert SanitizeKeys(clean) == clean;
  }

  // At every place of the one there is the escaped text of the other.
  predicate Escaped(k: Key, clean: Key)
    decreases k
  {
    match k
    case Text(s) => clean == Text(EscapeAll(s))
    case List(keys) =>
      clean.List? && |keys| == |clean.keys| && forall i :: 0 <= i < |keys| ==> Escaped(keys[i], clean.keys[i])
  }

  /** On arbitrarily nested lists too, each text of the result is the substitution of the text at its place. */
  lemma {:induction false} SanitizeKeyEscapes(k: Key)
    ensures Escaped(k, SanitizeKey(k))
    decreases k
  {
    match k
    case Text(s) => SanitizeIsSimultaneous(s);
    case List(keys) =>
      KeysByIndex(keys);
      forall i | 0 <= i < |keys|
        ensures Escaped(keys[i], SanitizeKeys(keys)[i])
      {
        SanitizeKeyEscapes(keys[i]);
      }
  }

  // ---------------------------------------------------------------------------------------------
  // The loops over lists and dictionaries

  method SanitizeKeyForMongo(input: Key) returns (clean: Key)
    ensures clean == SanitizeKey(input)
    decreases input
  {
    match input
    case List(keys) =>
      var out: seq<Key> := [];
      for i := 0 to |keys|
        invariant |out| == i
        invariant forall j :: 0 <= j < i ==> out[j] == SanitizeKey(keys[j])
      {
        var one := SanitizeKeyForMongo(keys[i]);
        out := out + [one];
      }
      KeysByIndex(keys);
      assert out == SanitizeKeys(keys);
      clean := List(out);
    case Text(s) =>
      clean := Text(Sanitize(s));
  }

  // What cleaning a dictionary may return. Of two keys that become one, either value is kept: a dictionary has no
  // order. Its values are not cleaned.
  ghost predicate Cleaned<V>(input: map<string, V>, clean: map<string, V>) {
    && (forall k :: k in input ==> Sanitize(k) in clean)
    && (forall key :: key in clean ==> exists k :: k in input && Sanitize(k) == key && clean[key] == input[k])
  }

  method SanitizeDictForMongo<V>(input: map<string, V>) returns (clean: map<string, V>)
    ensures Cleaned(input, clean)
    ensures forall key :: key in clean ==> Safe(key)
    ensures (forall k :: k in input ==> Plain(k)) ==>
              |clean| == |input| && forall k :: k in input ==> Sanitize(k) in clean && clean[Sanitize(k)] == input[k]
  {
    clean := map[];
    var todo := input.Keys;
    while todo != {}
      invariant todo <= input.Keys
      invariant forall k :: k in input && k !in todo ==> Sanitize(k) in clean
      invariant forall key :: key in clean ==> exists k :: k in input && Sanitize(k) == key && clean[key] == input[k]
      decreases todo
    {
      var key :| key in todo;
      clean := clean[Sanitize(key) := input[key]];
      todo := todo - {key};
    }
    forall c | c in clean
      ensures Safe(c)
    {
      var k :| k in input && Sanitize(k) == c;
      SanitizeIsSafe(k);
    }
    if forall k :: k in input ==> Plain(k) {
      PlainKeysLoseNothing(input, clean);
    }
  }

  // ---------------------------------------------------------------------------------------------
  // Which keys can be told apart afterwards

  // `word` and then a character whose substitute begins with '_': what is written out looks like a substitute.
  predicate LooksEscaped(s: string, word: string) {
    word < s && s[|word|] in "_.$"
  }

  // No "_dot" and no "_dollarsign" is followed by '_', '.' or '$'.
  predicate Plain(s: string) {
    s == "" || (!LooksEscaped(s, "_dot") && !LooksEscaped(s, "_dollarsign") && Plain(s[1..]))
  }

  // Reads a sanitised string back, from the left.
  function Restore(s: string): string {
    if s == "" then ""
    else if "_dot_" <= s then "." + Restore(s[5..])
    else if "_dollarsign_" <= s then "$" + Restore(s[12..])
    else [s[0]] + Restore(s[1..])
  }

  lemma RestoreEscape(ch: char, rest: string)
    requires ch in ".$"
    ensures Restore(Escape(ch) + rest) == [ch] + Restore(rest)
  {
    var all := Escape(ch) + rest;
    if ch == '.' {
      assert all[5..] == rest;
    } else {
      assert all[12..] == rest && all[3] == 'l';
    }
  }

  lemma EscapeFirst(s: string)
    requires s != ""
    ensures s == [s[0]] + s[1..]
    ensures s[0] !in ".$" ==> EscapeAll(s)[0] == s[0] && EscapeAll(s)[1..] == EscapeAll(s[1..])
    ensures s[0] in "_.$" <==> EscapeAll(s)[0] == '_'
  {
  }

  // A word and a '_' are written out exactly where the word is followed by something that begins with '_'.
  lemma {:induction false} WordWritten(s: string, word: string)
    requires forall ch :: ch in word ==> ch !in "_.$"
    ensures word + "_" <= EscapeAll(s) <==> word < s && s[|word|] in "_.$"
    decreases word
  {
    if s != "" {
      EscapeFirst(s);
      if word != "" {
        assert word[0] in word && word == [word[0]] + word[1..];
        if s[0] == word[0] {
          WordWritten(s[1..], word[1..]);
          WordsAlign(EscapeAll(s), s, word);
        } else {
          assert (word + "_")[0] == word[0];
        }
      }
    }
  }

  lemma WordsAlign(written: string, s: string, word: string)
    requires written != "" && s != "" && word != "" && written[0] == s[0] == word[0]
    ensures word + "_" <= written <==> word[1..] + "_" <= written[1..]
    ensures word < s <==> word[1..] < s[1..]
    ensures word < s ==> s[|word|] == s[1..][|word[1..]|]
  {
    assert word + "_" == [word[0]] + (word[1..] + "_");
    assert written == [written[0]] + written[1..] && s == [s[0]] + s[1..] && word == [word[0]] + word[1..];
  }

  // Where the string begins with a literal, a substitute is written out exactly where it looks escaped.
  lemma WrittenSubstitute(s: string, word: string)
    requires s != "" && s[0] !in ".$" && word != "" && word[0] == '_'
    requires forall ch :: ch in word[1..] ==> ch !in "_.$"
    ensures word + "_" <= EscapeAll(s) <==> LooksEscaped(s, word)
  {
    EscapeFirst(s);
    if s[0] == '_' {
      WordWritten(s[1..], word[1..]);
      WordsAlign(EscapeAll(s), s, word);
    } else {
      assert (word + "_")[0] == '_';
    }
  }

  lemma SubstituteWords()
    ensures "_dot" + "_" == "_dot_" && "_dollarsign" + "_" == "_dollarsign_"
    ensures forall ch :: ch in "_dot"[1..] || ch in "_dollarsign"[1..] ==> ch !in "_.$"
  {
    assert "_dot"[1..] == "dot" && "_dollarsign"[1..] == "dollarsign";
  }

  // A literal is restored as itself exactly where nothing looks escaped.
  lemma RestoreLiteral(s: string)
    requires s != "" && s[0] !in ".$"
    ensures "_dot_" <= EscapeAll(s) <==> LooksEscaped(s, "_dot")
    ensures "_dollarsign_" <= EscapeAll(s) <==> LooksEscaped(s, "_dollarsign")
  {
    SubstituteWords();
    WrittenSubstitute(s, "_dot");
    WrittenSubstitute(s, "_dollarsign");
  }

  lemma {:induction false} RestorePlain(s: string)
    requires Plain(s)
    ensures Restore(EscapeAll(s)) == s
    decreases s
  {
    if s != "" {
      RestorePlain(s[1..]);
      EscapeFirst(s);
      if s[0] in ".$" {
        RestoreEscape(s[0], EscapeAll(s[1..]));
      } else {
        RestoreLiteral(s);
      }
    }
  }

  lemma LiteralBefore(s: string, rest: string)
    requires s != "" && s[0] !in ".$" && !("_dot_" <= s) && !("_dollarsign_" <= s)
    requires Plain(rest) && EscapeAll(rest) == s[1..]
    ensures Plain([s[0]] + rest) && EscapeAll([s[0]] + rest) == s
  {
    var r := [s[0]] + rest;
    assert r[1..] == rest && s == [s[0]] + s[1..];
    RestoreLiteral(r);
  }

  lemma {:induction false} RestoredIsPlain(s: string)
    requires Safe(s)
    ensures Plain(Restore(s)) && EscapeAll(Restore(s)) == s
    decreases s
  {
    if "_dot_" <= s {
      RestoredIsPlain(s[5..]);
      PlainBehind('.', Restore(s[5..]));
      assert s == "_dot_" + s[5..];
    } else if "_dollarsign_" <= s {
      RestoredIsPlain(s[12..]);
      PlainBehind('$', Restore(s[12..]));
      assert s == "_dollarsign_" + s[12..];
    } else if s != "" {
      RestoredIsPlain(s[1..]);
      LiteralBefore(s, Restore(s[1..]));
    }
  }

  lemma PlainBehind(ch: char, rest: string)
    requires ch in ".$" && Plain(rest)
    ensures Plain([ch] + rest) && EscapeAll([ch] + rest) == Escape(ch) + EscapeAll(rest)
  {
    var all := [ch] + rest;
    assert all[1..] == rest && all[0] != "_dot"[0] && all[0] != "_dollarsign"[0];
  }

  /** Exactly the plain keys are read back from their sanitised form, and every sanitised form is that of exactly one
      plain key. */
  lemma RestoredIffPlain(k: string)
    ensures Restore(Sanitize(k)) == k <==> Plain(k)
    ensures forall p :: Plain(p) && Sanitize(p) == Sanitize(k) <==> p == Restore(Sanitize(k))
  {
    SanitizeIsSafe(k);
    RestoredIsPlain(Sanitize(k));
    forall p
      ensures Sanitize(p) == EscapeAll(p)
      ensures Plain(p) ==> Restore(EscapeAll(p)) == p
    {
      SanitizeIsSimultaneous(p);
      if Plain(p) {
        RestorePlain(p);
      }
    }
  }

  lemma {:induction false} ImageSize(keys: set<string>)
    requires forall k :: k in keys ==> Plain(k)
    ensures |set k | k in keys :: Sanitize(k)| == |keys|
    decreases keys
  {
    if keys != {} {
      var x :| x in keys;
      ImageSize(keys - {x});
      var fewer := set k | k in keys - {x} :: Sanitize(k);
      assert (set k | k in keys :: Sanitize(k)) == fewer + {Sanitize(x)};
      RestoredIffPlain(x);
      assert keys == (keys - {x}) + {x};
    }
  }

  lemma PlainKeysLoseNothing<V>(input: map<string, V>, clean: map<string, V>)
    requires Cleaned(input, clean) && forall k :: k in input ==> Plain(k)
    ensures |clean| == |input| && forall k :: k in input ==> Sanitize(k) in clean && clean[Sanitize(k)] == input[k]
  {
    ImageSize(input.Keys);
    assert clean.Keys == set k | k in input.Keys :: Sanitize(k);
    forall k | k in input
      ensures clean[Sanitize(k)] == input[k]
    {
      var other :| other in input && Sanitize(other) == Sanitize(k) && clean[Sanitize(k)] == input[other];
      RestoredIffPlain(k);
      assert Plain(other);
    }
  }

  // A dictionary keeps all its entries, whatever it holds under this key and under any plain keys.
  ghost predicate NeverLost(k: string) {
    forall input: map<string, int>, clean: map<string, int> ::
      k in input && (forall other :: other in input && other != k ==> Plain(other)) && Cleaned(input, clean) ==>
        |clean| == |input| && clean[Sanitize(k)] == input[k]
  }

  lemma PlainIsNeverLost(k: string)
    requires Plain(k)
    ensures NeverLost(k)
  {
    forall input: map<string, int>, clean: map<string, int> |
      k in input && (forall other :: other in input && other != k ==> Plain(other)) && Cleaned(input, clean)
      ensures |clean| == |input| && clean[Sanitize(k)] == input[k]
    {
      PlainKeysLoseNothing(input, clean);
    }
  }

  // What a key is read back as, if not as itself.
  lemma HasTwin(k: string)
    requires !Plain(k)
    ensures var twin := Restore(Sanitize(k)); Plain(twin) && Sanitize(twin) == Sanitize(k) && twin != k
  {
    RestoredIffPlain(k);
  }

  /** A dictionary of plain keys loses no entry, and adding any other key can lose one. */
  lemma NoEntryLost(k: string)
    ensures NeverLost(k) <==> Plain(k)
  {
    if Plain(k) {
      PlainIsNeverLost(k);
    } else {
      HasTwin(k);
      LosesOne(k, Restore(Sanitize(k)));
    }
  }

  lemma LosesOne(a: string, b: string)
    requires a != b && Sanitize(a) == Sanitize(b)
    ensures var input, clean := map[a := 0, b := 1], map[Sanitize(a) := 0];
      Cleaned(input, clean) && |clean| == 1 && |input| == 2
  {
    var input, clean := map[a := 0, b := 1], map[Sanitize(a) := 0];
    assert input.Keys == {a, b} && clean.Keys == {Sanitize(a)};
    assert a in input && clean[Sanitize(a)] == input[a];
  }

  lemma {:induction false} EscapeSafe(s: string)
    requires Safe(s)
    ensures EscapeAll(s) == s
    decreases s
  {
    if s != "" {
      EscapeSafe(s[1..]);
      assert s == [s[0]] + s[1..];
    }
  }

  lemma EscapeOne(ch: char)
    ensures EscapeAll([ch]) == Escape(ch)
  {
    assert [ch][1..] == "" && EscapeAll("") == "";
  }

  lemma EscapeAround(a: string, ch: char, b: string)
    requires Safe(a) && Safe(b)
    ensures EscapeAll(a + [ch] + b) == a + Escape(ch) + b
  {
    EscapeAppends(a + [ch], b);
    EscapeAppends(a, [ch]);
    EscapeSafe(a);
    EscapeSafe(b);
    EscapeOne(ch);
  }

  lemma SanitizeAround(a: string, ch: char, b: string)
    requires Safe(a) && Safe(b)
    ensures Sanitize(a + [ch] + b) == a + Escape(ch) + b
  {
    EscapeAround(a, ch, b);
    SanitizeIsSimultaneous(a + [ch] + b);
  }

  lemma {:induction false} EscapeAppends(a: string, b: string)
    ensures EscapeAll(a + b) == EscapeAll(a) + EscapeAll(b)
    decreases a
  {
    if a == "" {
      assert a + b == b;
    } else {
      assert (a + b)[1..] == a[1..] + b;
      EscapeAppends(a[1..], b);
    }
  }

  /** Keys that become one, and then one entry is lost; for instance "a.b" and "a_dot_b". */
  lemma KeysCollide(a: string, b: string)
    requires Safe(a) && Safe(b)
    ensures var dotted, written := a + "." + b, a + "_dot_" + b;
      && dotted != written && Sanitize(dotted) == written == Sanitize(written)
      && exists clean :: Cleaned(map[dotted := 0, written := 1], clean) && |clean| == 1
  {
    var dotted, written := a + "." + b, a + "_dot_" + b;
    SanitizeAround(a, '.', b);
    SafeUnchanged(written);
    assert |dotted| != |written|;
    LosesOne(dotted, written);
  }

  /** That no key has the whole substitute in it does not help; for instance "_dot." and ".dot_". */
  lemma PartsCollide(a: string, b: string)
    requires Safe(a) && Safe(b)
    ensures Sanitize(a + "_dot." + b) == Sanitize(a + ".dot_" + b) == a + "_dot_dot_" + b
  {
    assert a + "_dot." + b == (a + "_dot") + "." + b && a + ".dot_" + b == a + "." + ("dot_" + b);
    SanitizeAround(a + "_dot", '.', b);
    SanitizeAround(a, '.', "dot_" + b);
    assert (a + "_dot") + "_dot_" + b == a + "_dot_dot_" + b == a + "_dot_" + ("dot_" + b);
  }

  lemma ConcreteKeysCollide() returns (dotted: string, written: string)
    ensures dotted == "a.b" && written == "a_dot_b" && Sanitize(dotted) == Sanitize(written)
  {
    dotted, written := "a" + "." + "b", "a" + "_dot_" + "b";
    KeysCollide("a", "b");
  }

  // ---------------------------------------------------------------------------------------------
  // The sync watermark

  type SyncInfo = map<string, int>

  function LastSync(info: SyncInfo, host: string): Option<int> {
    var key := Sanitize(host);
    if key in info then Some(info[key]) else None
  }

  // The caller sanitises the key, and the pre-save hook sanitises it again.
  function WithLastSync(info: SyncInfo, host: string, at: int): SyncInfo {
    info[Sanitize(Sanitize(host)) := at]
  }

  /** A saved watermark is the one read back, for its own host and exactly the hosts whose names sanitise alike;
      every other host keeps its own. */
  lemma WatermarkRoundTrip(info: SyncInfo, host: string, at: int, other: string)
    ensures LastSync(WithLastSync(info, host, at), host) == Some(at)
    ensures LastSync(WithLastSync(info, host, at), other) ==
            if Sanitize(other) == Sanitize(host) then Some(at) else LastSync(info, other)
  {
    SanitizeIsSafe(host);
  }
}
