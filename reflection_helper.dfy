// Name handling of ReflectionHelper: splitting a dotted
// "Namespace.Class.Method" name into its parts, and the dictionary lookup
// with a fallback value.

module ReflectionHelper {
  import opened Wrappers

  /** The separator of qualified names. */
  const Dot := '.'

  /** Number of occurrences of `c` in `s`. */
  function Occurrences(s: string, c: char): nat
  {
    multiset(s)[c]
  }

  /** String.Split(char): the maximal runs between separators, empty runs
      included; there is always at least one. */
  function Split(s: string, sep: char): (parts: seq<string>)
    ensures |parts| >= 1
    decreases |s|
  {
    if s == [] then [[]]
    else
      var rest := Split(s[1..], sep);
      if s[0] == sep then [[]] + rest
      else [[s[0]] + rest[0]] + rest[1..]
  }

  /** A string with n separators splits into n + 1 segments. */
  lemma {:induction false} SplitCount(s: string, sep: char)
    ensures |Split(s, sep)| == Occurrences(s, sep) + 1
    decreases |s|
  {
    if s != [] {
      assert s == [s[0]] + s[1..];
      SplitCount(s[1..], sep);
    }
  }

  /** No segment of a split contains the separator. */
  lemma {:induction false} SplitSegmentsFree(s: string, sep: char)
    ensures forall i :: 0 <= i < |Split(s, sep)| ==> sep !in Split(s, sep)[i]
    decreases |s|
  {
    if s != [] {
      SplitSegmentsFree(s[1..], sep);
      var rest := Split(s[1..], sep);
      var parts := Split(s, sep);
      if s[0] != sep {
        forall i | 0 <= i < |parts|
          ensures sep !in parts[i]
        {
          if i == 0 {
            assert parts[0] == [s[0]] + rest[0];
          } else {
            assert parts[i] == rest[i];
          }
        }
      } else {
        forall i | 0 <= i < |parts|
          ensures sep !in parts[i]
        {
          if i > 0 {
            assert parts[i] == rest[i - 1];
          }
        }
      }
    }
  }

  /** String.Join(char, parts): the parts with one separator between
      neighbours. */
  function Join(parts: seq<string>, sep: char): string
  {
    if |parts| == 0 then []
    else if |parts| == 1 then parts[0]
    else parts[0] + [sep] + Join(parts[1..], sep)
  }

  /** Joining the segments of a split gives back the string. */
  lemma {:induction false} JoinSplit(s: string, sep: char)
    ensures Join(Split(s, sep), sep) == s
    decreases |s|
  {
    if s != [] {
      var rest := Split(s[1..], sep);
      var parts := Split(s, sep);
      JoinSplit(s[1..], sep);
      assert s == [s[0]] + s[1..];
      if s[0] == sep {
        assert parts[0] == [] && parts[1..] == rest;
      } else if |rest| == 1 {
        assert parts == [[s[0]] + rest[0]];
      } else {
        assert parts[0] == [s[0]] + rest[0] && parts[1..] == rest[1..];
        assert Join(rest, sep) == rest[0] + [sep] + Join(rest[1..], sep);
      }
    }
  }

  /** A string without the separator splits into itself alone. */
  lemma {:induction false} SplitWithoutSeparator(a: string, sep: char)
    requires sep !in a
    ensures Split(a, sep) == [a]
    decreases |a|
  {
    if a != [] {
      assert a == [a[0]] + a[1..];
      SplitWithoutSeparator(a[1..], sep);
    }
  }

  /** Splitting at a separator that follows a separator-free prefix. */
  lemma {:induction false} SplitAfterSegment(a: string, sep: char, b: string)
    requires sep !in a
    ensures Split(a + [sep] + b, sep) == [a] + Split(b, sep)
    decreases |a|
  {
    var s := a + [sep] + b;
    if a == [] {
      assert s[1..] == b;
    } else {
      assert a == [a[0]] + a[1..];
      assert s[0] == a[0] && s[1..] == a[1..] + [sep] + b;
      SplitAfterSegment(a[1..], sep, b);
    }
  }

  /** Splitting the join of separator-free parts gives back the parts. */
  lemma {:induction false} SplitJoin(parts: seq<string>, sep: char)
    requires |parts| >= 1
    requires forall i :: 0 <= i < |parts| ==> sep !in parts[i]
    ensures Split(Join(parts, sep), sep) == parts
    decreases |parts|
  {
    if |parts| == 1 {
      SplitWithoutSeparator(parts[0], sep);
    } else {
      SplitJoin(parts[1..], sep);
      SplitAfterSegment(parts[0], sep, Join(parts[1..], sep));
    }
  }

  /** Joining two non-empty lists of parts is joining their joins. */
  lemma {:induction false} JoinAppend(a: seq<string>, b: seq<string>, sep: char)
    requires |a| >= 1 && |b| >= 1
    ensures Join(a + b, sep) == Join(a, sep) + [sep] + Join(b, sep)
    decreases |a|
  {
    if |a| > 1 {
      assert (a + b)[1..] == a[1..] + b;
      JoinAppend(a[1..], b, sep);
    }
  }

  /** SplitNamespaceClassMethod: a name with three or more segments becomes
      [namespace, class, method], where the namespace is every segment but
      the last two rejoined; two segments are returned as they are, and a name
      without a dot as the only element. The null result for a split with no
      segments is kept as `None`, which the bound on `Split` shows never
      happens. */
  function SplitNamespaceClassMethod(input: string): (r: Option<seq<string>>)
    ensures r.Some? && 1 <= |r.value| <= 3
  {
    var parts := Split(input, Dot);
    if |parts| >= 3 then
      Some([Join(parts[..|parts| - 2], Dot), parts[|parts| - 2], parts[|parts| - 1]])
    else if |parts| == 2 then
      Some([parts[0], parts[1]])
    else if |parts| == 1 then
      Some([parts[0]])
    else
      None
  }

  /** The parts of a split name, joined with dots, give back the name. */
  lemma SplitNameRoundTrip(input: string)
    ensures Join(SplitNamespaceClassMethod(input).value, Dot) == input
  {
    var parts := Split(input, Dot);
    JoinSplit(input, Dot);
    if |parts| >= 3 {
      var n := |parts|;
      var prefix, tail := parts[..n - 2], [parts[n - 2], parts[n - 1]];
      assert parts == prefix + tail;
      JoinAppend(prefix, tail, Dot);
      var r := [Join(prefix, Dot), parts[n - 2], parts[n - 1]];
      assert SplitNamespaceClassMethod(input).value == r;
      assert r[1..] == tail;
      assert Join(r, Dot) == Join(prefix, Dot) + [Dot] + Join(tail, Dot);
    } else if |parts| == 2 {
      assert SplitNamespaceClassMethod(input).value == parts;
    }
  }

  /** One part per dot up to three parts; only the namespace part may
      contain a dot: the class and method parts never do, and with fewer
      than three parts no part does. */
  lemma SplitNameSegments(input: string)
    ensures var r := SplitNamespaceClassMethod(input).value;
      |r| == (if Occurrences(input, Dot) >= 2 then 3 else Occurrences(input, Dot) + 1) &&
      Dot !in r[|r| - 1] &&
      (|r| >= 2 ==> Dot !in r[|r| - 2]) &&
      (|r| <= 2 ==> forall i :: 0 <= i < |r| ==> Dot !in r[i])
  {
    SplitCount(input, Dot);
    SplitSegmentsFree(input, Dot);
  }

  /** A name without a dot is returned as the only element. */
  lemma SplitNameWithoutDot(input: string)
    requires Dot !in input
    ensures SplitNamespaceClassMethod(input) == Some([input])
  {
    SplitWithoutSeparator(input, Dot);
  }

  /** "Class.Method" splits at its only dot. */
  lemma SplitNameTwoSegments(cls: string, member: string)
    requires Dot !in cls && Dot !in member
    ensures SplitNamespaceClassMethod(cls + [Dot] + member) == Some([cls, member])
  {
    SplitAfterSegment(cls, Dot, member);
    SplitWithoutSeparator(member, Dot);
  }

  /** "Namespace.Class.Method" splits into a namespace that keeps its own
      dots, the class and the method. */
  lemma SplitNameThreeSegments(ns: string, cls: string, member: string)
    requires Dot !in cls && Dot !in member
    ensures SplitNamespaceClassMethod(ns + [Dot] + cls + [Dot] + member) == Some([ns, cls, member])
  {
    var input := ns + [Dot] + cls + [Dot] + member;
    var nsParts := Split(ns, Dot);
    var tail := [cls, member];
    var parts := nsParts + tail;
    assert Split(input, Dot) == parts by {
      assert tail[1..] == [member];
      assert Join(tail, Dot) == cls + [Dot] + member;
      JoinAppend(nsParts, tail, Dot);
      JoinSplit(ns, Dot);
      assert Join(parts, Dot) == input;
      forall i | 0 <= i < |parts|
        ensures Dot !in parts[i]
      {
        if i < |nsParts| {
          SplitSegmentsFree(ns, Dot);
          assert parts[i] == nsParts[i];
        } else {
          assert parts[i] == tail[i - |nsParts|];
        }
      }
      SplitJoin(parts, Dot);
    }
    var n := |parts|;
    assert parts[..n - 2] == nsParts;
    assert parts[n - 2] == cls && parts[n - 1] == member;
    JoinSplit(ns, Dot);
  }

  /** GetDictionaryPropertyValue: the mapped value when the key is present,
      the fallback otherwise. */
  function GetDictionaryPropertyValue<K, V>(dict: map<K, V>, key: K, fallback: V): (r: V)
    ensures key in dict ==> r == dict[key]
    ensures key !in dict ==> r == fallback
  {
    if key in dict then dict[key] else fallback
  }

  /** A lookup sees a stored entry and only that entry changes. */
  lemma LookupAfterStore<K, V>(dict: map<K, V>, key: K, value: V, other: K, fallback: V)
    ensures GetDictionaryPropertyValue(dict[key := value], key, fallback) == value
    ensures other != key ==>
      GetDictionaryPropertyValue(dict[key := value], other, fallback) == GetDictionaryPropertyValue(dict, other, fallback)
  {
  }
}
