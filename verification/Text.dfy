/** Trimming, case folding, splitting and comparison of strings, restricted to ASCII white space and letters. */
module Text {
  // What Go's strings.TrimSpace and Python's str.strip remove, among ASCII characters.
  const GO_SPACE: set<char> := {'\t', '\n', 0x0B as char, 0x0C as char, '\r', ' '}
  const PYTHON_SPACE: set<char> := GO_SPACE + {0x1C as char, 0x1D as char, 0x1E as char, 0x1F as char}

  function StripLeft(text: string, space: set<char>): (r: string)
    ensures r != "" ==> r[0] !in space
    ensures |r| <= |text|
  {
    if text != "" && text[0] in space then StripLeft(text[1..], space) else text
  }

  function StripRight(text: string, space: set<char>): (r: string)
    ensures r != "" ==> r[|r| - 1] !in space
    ensures |r| <= |text|
  {
    if text != "" && text[|text| - 1] in space then StripRight(text[..|text| - 1], space) else text
  }

  function Strip(text: string, space: set<char>): string {
    StripRight(StripLeft(text, space), space)
  }

  predicate Trimmed(text: string, space: set<char>) {
    text == "" || (text[0] !in space && text[|text| - 1] !in space)
  }

  lemma StripRightIsPrefix(text: string, space: set<char>)
    ensures text[..|StripRight(text, space)|] == StripRight(text, space)
  {
  }

  lemma StripGivesTrimmed(text: string, space: set<char>)
    ensures Trimmed(Strip(text, space), space)
  {
    var left := StripLeft(text, space);
    StripRightIsPrefix(left, space);
    assert Strip(text, space) != "" ==> Strip(text, space)[0] == left[0];
  }

  // Strip leaves a text alone exactly when it has no white space at its ends.
  lemma StripFixesTrimmed(text: string, space: set<char>)
    ensures Strip(text, space) == text <==> Trimmed(text, space)
  {
    StripGivesTrimmed(text, space);
  }

  lemma StripIsIdempotent(text: string, space: set<char>)
    ensures Strip(Strip(text, space), space) == Strip(text, space)
  {
    StripGivesTrimmed(text, space);
    StripFixesTrimmed(Strip(text, space), space);
  }

  // `trimmed` is the text without the white space at its ends.
  ghost predicate IsTrimOf(text: string, trimmed: string, space: set<char>) {
    Trimmed(trimmed, space) && exists i: nat, j: nat :: IsMiddle(text, trimmed, i, j) && AllIn(text[..i], space) && AllIn(text[j..], space)
  }

  predicate IsMiddle(text: string, middle: string, i: nat, j: nat) {
    i <= j <= |text| && text[i..j] == middle
  }

  predicate AllIn(text: string, space: set<char>) {
    forall k | 0 <= k < |text| :: text[k] in space
  }

  lemma {:induction false} StripLeftStops(text: string, i: nat, space: set<char>)
    requires i <= |text| && AllIn(text[..i], space) && (i < |text| ==> text[i] !in space)
    ensures StripLeft(text, space) == text[i..]
    decreases i
  {
    if i > 0 {
      assert text[0] == text[..i][0];
      assert text[1..][..i - 1] == text[..i][1..];
      StripLeftStops(text[1..], i - 1, space);
    }
  }

  lemma {:induction false} StripRightStops(text: string, j: nat, space: set<char>)
    requires j <= |text| && AllIn(text[j..], space) && (j > 0 ==> text[j - 1] !in space)
    ensures StripRight(text, space) == text[..j]
    decreases |text|
  {
    if j < |text| {
      var shorter := text[..|text| - 1];
      assert text[|text| - 1] == text[j..][|text| - 1 - j];
      assert shorter[j..] == text[j..][..|text| - 1 - j];
      StripRightStops(shorter, j, space);
      assert shorter[..j] == text[..j];
    }
  }

  lemma {:induction false} StripLeftDropsSpace(text: string, space: set<char>) returns (i: nat)
    ensures i <= |text| && AllIn(text[..i], space) && StripLeft(text, space) == text[i..]
    decreases |text|
  {
    i := 0;
    if text != "" && text[0] in space {
      var rest := StripLeftDropsSpace(text[1..], space);
      i := rest + 1;
      forall k | 0 <= k < i ensures text[..i][k] in space {
        assert k > 0 ==> text[..i][k] == text[1..][..rest][k - 1];
      }
    }
  }

  lemma {:induction false} StripRightDropsSpace(text: string, space: set<char>) returns (j: nat)
    ensures j <= |text| && AllIn(text[j..], space) && StripRight(text, space) == text[..j]
    decreases |text|
  {
    j := |text|;
    if text != "" && text[|text| - 1] in space {
      var shorter := text[..|text| - 1];
      j := StripRightDropsSpace(shorter, space);
      assert text[..j] == shorter[..j];
      forall k | 0 <= k < |text| - j ensures text[j..][k] in space {
        assert k < |text| - 1 - j ==> text[j..][k] == shorter[j..][k];
      }
    }
  }

  // Strip takes away the white space at both ends, and nothing else.
  lemma StripIff(text: string, trimmed: string, space: set<char>)
    ensures Strip(text, space) == trimmed <==> IsTrimOf(text, trimmed, space)
  {
    if Strip(text, space) == trimmed {
      StripGivesTrimmed(text, space);
      var i := StripLeftDropsSpace(text, space);
      var j := StripRightDropsSpace(text[i..], space);
      assert text[i..][..j] == text[i..i + j] && text[i..][j..] == text[i + j..];
      assert IsMiddle(text, trimmed, i, i + j);
    }
    if IsTrimOf(text, trimmed, space) {
      var i: nat, j: nat :| IsMiddle(text, trimmed, i, j) && AllIn(text[..i], space) && AllIn(text[j..], space);
      MiddleIsStrip(text, trimmed, i, j, space);
    }
  }

  lemma MiddleIsStrip(text: string, trimmed: string, i: nat, j: nat, space: set<char>)
    requires Trimmed(trimmed, space) && IsMiddle(text, trimmed, i, j) && AllIn(text[..i], space) && AllIn(text[j..], space)
    ensures Strip(text, space) == trimmed
  {
    if trimmed == "" {
      forall k | 0 <= k < |text| ensures text[..|text|][k] in space {
        assert k < i ==> text[k] == text[..i][k];
        assert k >= j ==> text[k] == text[j..][k - j];
      }
      StripLeftStops(text, |text|, space);
    } else {
      assert text[i] == trimmed[0] && text[j - 1] == trimmed[|trimmed| - 1];
      StripLeftStops(text, i, space);
      assert text[i..][j - i..] == text[j..] && text[i..][..j - i] == trimmed;
      StripRightStops(text[i..], j - i, space);
    }
  }

  predicate Blank(text: string, space: set<char>) {
    Strip(text, space) == ""
  }

  function LowerChar(c: char): char {
    if 'A' <= c <= 'Z' then 'a' + (c - 'A') else c
  }

  function Lower(text: string): (r: string)
    ensures |r| == |text| && forall i | 0 <= i < |text| :: r[i] == LowerChar(text[i])
  {
    seq(|text|, i requires 0 <= i < |text| => LowerChar(text[i]))
  }

  lemma LowerIsIdempotent(text: string)
    ensures Lower(Lower(text)) == Lower(text)
  {
  }

  lemma LowerKeepsSpace(c: char)
    ensures LowerChar(c) in PYTHON_SPACE <==> c in PYTHON_SPACE
  {
  }

  lemma LowerKeepsTrimmed(text: string)
    ensures Trimmed(Lower(text), PYTHON_SPACE) <==> Trimmed(text, PYTHON_SPACE)
  {
    if text != "" {
      LowerKeepsSpace(text[0]);
      LowerKeepsSpace(text[|text| - 1]);
    }
  }

  // The position of the first `c`, or the length when there is none.
  function IndexOf(text: string, c: char): (i: nat)
    ensures i <= |text|
    ensures forall k | 0 <= k < i :: text[k] != c
    ensures i < |text| ==> text[i] == c
  {
    if text == "" || text[0] == c then 0 else 1 + IndexOf(text[1..], c)
  }

  lemma IndexOfIsFirst(text: string, c: char, i: nat)
    requires i <= |text| && (forall k | 0 <= k < i :: text[k] != c) && (i < |text| ==> text[i] == c)
    ensures IndexOf(text, c) == i
  {
  }

  function Split(text: string, separator: char): (parts: seq<string>)
    ensures parts != []
    ensures forall p | p in parts :: separator !in p
    decreases |text|
  {
    var i := IndexOf(text, separator);
    if i == |text| then [text] else [text[..i]] + Split(text[i + 1..], separator)
  }

  function Join(parts: seq<string>, separator: char): string {
    if parts == [] then "" else if |parts| == 1 then parts[0]
    else parts[0] + [separator] + Join(parts[1..], separator)
  }

  lemma SplitAtSeparator(head: string, separator: char, tail: string)
    requires separator !in head
    ensures Split(head + [separator] + tail, separator) == [head] + Split(tail, separator)
  {
    var text := head + [separator] + tail;
    forall k | 0 <= k < |head| ensures text[k] != separator {
      assert text[k] == head[k];
    }
    IndexOfIsFirst(text, separator, |head|);
    assert text[..|head|] == head && text[|head| + 1..] == tail;
  }

  lemma JoinOfCons(head: string, parts: seq<string>, separator: char)
    requires parts != []
    ensures Join([head] + parts, separator) == head + [separator] + Join(parts, separator)
  {
    assert ([head] + parts)[1..] == parts;
  }

  lemma {:induction false} SplitOfJoin(parts: seq<string>, separator: char)
    requires parts != [] && forall i | 0 <= i < |parts| :: separator !in parts[i]
    ensures Split(Join(parts, separator), separator) == parts
  {
    if |parts| == 1 {
      IndexOfIsFirst(parts[0], separator, |parts[0]|);
      assert parts == [parts[0]];
    } else {
      SplitOfJoin(parts[1..], separator);
      SplitAtSeparator(parts[0], separator, Join(parts[1..], separator));
      assert parts == [parts[0]] + parts[1..];
    }
  }

  lemma {:induction false} JoinOfSplit(text: string, separator: char)
    ensures Join(Split(text, separator), separator) == text
    decreases |text|
  {
    var i := IndexOf(text, separator);
    if i < |text| {
      var head, tail := text[..i], text[i + 1..];
      JoinOfSplit(tail, separator);
      JoinOfCons(head, Split(tail, separator), separator);
      assert text == head + [separator] + tail;
    }
  }
}
