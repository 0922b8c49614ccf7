/** Kernel names are compared after normalisation (src/kernel_resolver.cpp:38-71): letter case is dropped and whatever
    is not a letter or a digit only separates words. Characters are bytes of the C locale. */
module KernelNames {

  predicate IsUpper(c: char) {
    'A' <= c <= 'Z'
  }

  predicate IsAlnum(c: char) {
    '0' <= c <= '9' || IsUpper(c) || 'a' <= c <= 'z'
  }

  function Lower(c: char): (r: char)
    ensures IsAlnum(r) <==> IsAlnum(c)
    ensures !IsUpper(r)
  {
    if IsUpper(c) then (c as int - 'A' as int + 'a' as int) as char else c
  }

  function LowerAll(s: string): (r: string)
    ensures |r| == |s| && forall i :: 0 <= i < |s| ==> r[i] == Lower(s[i])
  {
    seq(|s|, i requires 0 <= i < |s| => Lower(s[i]))
  }

  /** The 26 capital letters become the small ones in alphabetical order; no other character changes. */
  lemma LettersAreLowered(c: char, i: nat)
    ensures i < 26 ==> Lower("ABCDEFGHIJKLMNOPQRSTUVWXYZ"[i]) == "abcdefghijklmnopqrstuvwxyz"[i]
    ensures c !in "ABCDEFGHIJKLMNOPQRSTUVWXYZ" ==> Lower(c) == c
  {
    if IsUpper(c) {
      assert "ABCDEFGHIJKLMNOPQRSTUVWXYZ"[c as int - 'A' as int] == c;
    }
  }

  predicate NoUpper(s: string) {
    forall i :: 0 <= i < |s| ==> !IsUpper(s[i])
  }

  predicate IsWord(w: string) {
    w != [] && forall i :: 0 <= i < |w| ==> IsAlnum(w[i])
  }

  predicate AllWords(words: seq<string>) {
    forall i :: 0 <= i < |words| ==> IsWord(words[i])
  }

  function LongerFirst(c: char, words: seq<string>): seq<string>
    requires words != []
  {
    [[c] + words[0]] + words[1..]
  }

  /** The longest stretches of letters and digits, from left to right. */
  function Words(s: string): (r: seq<string>)
    ensures s != [] && IsAlnum(s[0]) ==> r != []
    ensures AllWords(r)
  {
    if s == [] then []
    else if !IsAlnum(s[0]) then Words(s[1..])
    else if |s| > 1 && IsAlnum(s[1]) then LongerFirst(s[0], Words(s[1..]))
    else [[s[0]]] + Words(s[1..])
  }

  function Join(words: seq<string>): string {
    if words == [] then []
    else if |words| == 1 then words[0]
    else words[0] + " " + Join(words[1..])
  }

  function Normalize(name: string): string {
    Join(Words(LowerAll(name)))
  }

  // One more character

  ghost predicate InWord(s: string) {
    s != [] && IsAlnum(s[|s| - 1])
  }

  function LongerLast(words: seq<string>, c: char): seq<string>
    requires words != []
  {
    words[..|words| - 1] + [words[|words| - 1] + [c]]
  }

  lemma FirstAndLast(words: seq<string>, a: char, c: char, w: string)
    requires words != []
    ensures LongerFirst(a, LongerLast(words, c)) == LongerLast(LongerFirst(a, words), c)
    ensures LongerFirst(a, words + [w]) == LongerFirst(a, words) + [w]
    ensures [w] + LongerLast(words, c) == LongerLast([w] + words, c)
  {
    assert [a] + (words[0] + [c]) == ([a] + words[0]) + [c];
  }

  lemma WordsOfOne(c: char)
    ensures Words([c]) == if IsAlnum(c) then [[c]] else []
  {
    assert [c][1..] == [];
  }

  lemma {:induction false} WordsOneMore(s: string, c: char)
    ensures InWord(s) ==> Words(s) != []
    ensures Words(s + [c]) == if !IsAlnum(c) then Words(s)
                              else if InWord(s) then LongerLast(Words(s), c)
                              else Words(s) + [[c]]
  {
    hide IsAlnum, LongerFirst, LongerLast, AllWords;
    WordsOfOne(c);
    if s == [] {
      assert s + [c] == [c];
    } else {
      var rest := s[1..];
      assert (s + [c])[1..] == rest + [c];
      WordsOneMore(rest, c);
      assert [[s[0]]] + (Words(rest) + [[c]]) == [[s[0]]] + Words(rest) + [[c]];
      if rest == [] {
        assert s == [s[0]] && rest + [c] == [c];
        OneWord(s[0], c);
        assert Words(s) == if IsAlnum(s[0]) then [[s[0]]] else [];
        assert Words(rest) + [[c]] == [[c]];
      } else if Words(rest) != [] {
        FirstAndLast(Words(rest), s[0], c, [c]);
        FirstAndLast(Words(rest), s[0], c, [s[0]]);
      }
    }
  }

  lemma OneWord(a: char, c: char)
    ensures LongerFirst(a, [[c]]) == LongerLast([[a]], c) == [[a, c]]
  {
    assert [a] + [c] == [a, c];
  }

  lemma {:induction false} JoinWord(words: seq<string>, w: string)
    ensures Join(words + [w]) == if words == [] then w else Join(words) + " " + w
  {
    if words != [] {
      JoinWord(words[1..], w);
      assert (words + [w])[1..] == words[1..] + [w];
    }
  }

  lemma JoinLonger(words: seq<string>, c: char)
    requires words != []
    ensures Join(LongerLast(words, c)) == Join(words) + [c]
  {
    var before, last := words[..|words| - 1], words[|words| - 1];
    JoinWord(before, last);
    JoinWord(before, last + [c]);
    assert before + [last] == words;
  }

  lemma JoinEnds(words: seq<string>)
    requires words != [] && AllWords(words)
    ensures var joined := Join(words); joined != [] && joined[0] != ' ' && joined[|joined| - 1] != ' '
  {
    var before, last := words[..|words| - 1], words[|words| - 1];
    assert IsWord(words[0]) && IsWord(last) && words == before + [last];
    JoinWord(before, last);
  }

  /** What has been written after reading `s`: the words so far, with the space in front when it begins outside a word
      and the space behind when it ends outside one. */
  ghost function Written(s: string): string {
    if s == [] then []
    else if Words(s) == [] then " "
    else (if IsAlnum(s[0]) then "" else " ") + Join(Words(s)) + (if InWord(s) then "" else " ")
  }

  lemma {:induction false} NoWords(s: string)
    ensures Words(s) == [] <==> forall i :: 0 <= i < |s| ==> !IsAlnum(s[i])
  {
    hide IsAlnum;
    if s != [] {
      NoWords(s[1..]);
      assert forall i :: 0 < i < |s| ==> s[i] == s[1..][i - 1];
    }
  }

  lemma NothingWritten()
    ensures Written("") == ""
  {
  }

  lemma WrittenInWord(s: string, c: char)
    requires IsAlnum(c)
    ensures Written(s + [c]) == Written(s) + [c]
  {
    hide IsAlnum, Words, Join, AllWords;
    WordsOneMore(s, c);
    NoWords(s);
    if InWord(s) {
      JoinLonger(Words(s), c);
    } else {
      JoinWord(Words(s), [c]);
    }
  }

  lemma WrittenBetween(s: string, c: char)
    requires !IsAlnum(c)
    ensures Written(s + [c]) == if s == [] || InWord(s) then Written(s) + " " else Written(s)
  {
    hide IsAlnum, Words, Join, AllWords;
    WordsOneMore(s, c);
    NoWords(s);
  }

  /** There is at most one space at either end of the words. */
  lemma WrittenAround(s: string) returns (front: string, back: string)
    ensures Written(s) == front + Join(Words(s)) + back
    ensures (front == [] || front == " ") && (back == [] || back == " ")
    ensures var joined := Join(Words(s));
            if joined == [] then back == [] else joined[0] != ' ' && joined[|joined| - 1] != ' '
  {
    if Words(s) == [] {
      front, back := Written(s), "";
    } else {
      front, back := if IsAlnum(s[0]) then "" else " ", if InWord(s) then "" else " ";
      JoinEnds(Words(s));
    }
  }

  method TrimSpaces(written: string, ghost front: string, ghost words: string, ghost back: string) returns (r: string)
    requires written == front + words + back
    requires (front == [] || front == " ") && (back == [] || back == " ")
    requires if words == [] then back == [] else words[0] != ' ' && words[|words| - 1] != ' '
    ensures r == words
  {
    r := written;
    while r != [] && r[0] == ' '
      invariant r == words + back || r == " " + words + back
    {
      r := r[1..];
    }
    while r != [] && r[|r| - 1] == ' '
      invariant r == words || r == words + " "
    {
      r := r[..|r| - 1];
    }
  }

  /** The loop and the two trims give the words of the name in lower case, joined by single spaces. */
  method NormalizeName(name: string) returns (r: string)
    ensures r == Normalize(name)
  {
    hide Words, Join, IsAlnum, Written, LowerAll;
    var value := LowerAll(name);
    r := "";
    NothingWritten();
    var lastWasSpace := false;
    for i := 0 to |value|
      invariant r == Written(value[..i])
      invariant lastWasSpace <==> i > 0 && !IsAlnum(value[i - 1])
    {
      assert value[..i + 1] == value[..i] + [value[i]];
      if IsAlnum(value[i]) {
        WrittenInWord(value[..i], value[i]);
        r := r + [value[i]];
        lastWasSpace := false;
      } else {
        WrittenBetween(value[..i], value[i]);
        if !lastWasSpace {
          r := r + " ";
          lastWasSpace := true;
        }
      }
    }
    assert value[..|value|] == value;
    ghost var front, back := WrittenAround(value);
    r := TrimSpaces(r, front, Join(Words(value)), back);
  }

  // What normalisation is for

  lemma {:induction false} LowerWords(s: string)
    requires NoUpper(s)
    ensures forall i :: 0 <= i < |Words(s)| ==> NoUpper(Words(s)[i])
  {
    hide IsUpper, IsAlnum, AllWords;
    if s != [] {
      LowerWords(s[1..]);
    }
  }

  lemma {:induction false} LowerJoin(words: seq<string>)
    requires forall i :: 0 <= i < |words| ==> NoUpper(words[i])
    ensures NoUpper(Join(words))
  {
    if words != [] {
      LowerJoin(words[1..]);
    }
  }

  lemma {:induction false} WordsOfWord(w: string, rest: string)
    requires IsWord(w) && (rest != [] ==> !IsAlnum(rest[0]))
    ensures Words(w + rest) == [w] + Words(rest)
  {
    hide IsAlnum;
    assert (w + rest)[1..] == w[1..] + rest;
    if |w| == 1 {
      assert w == [w[0]] && w[1..] + rest == rest;
    } else {
      WordsOfWord(w[1..], rest);
      assert [w[0]] + w[1..] == w;
    }
  }

  lemma {:induction false} WordsOfJoin(words: seq<string>)
    requires AllWords(words)
    ensures Words(Join(words)) == words
  {
    if |words| == 1 {
      WordsOfWord(words[0], "");
      assert words[0] + "" == words[0];
    } else if words != [] {
      WordsOfJoin(words[1..]);
      var rest := " " + Join(words[1..]);
      WordsOfWord(words[0], rest);
      assert words[0] + " " + Join(words[1..]) == words[0] + rest;
      assert rest[1..] == Join(words[1..]);
    }
  }

  /** Whatever is not a letter or a digit ends a word, and nothing else does. */
  lemma {:induction false} WordsAround(a: string, c: char, b: string)
    requires !IsAlnum(c)
    ensures Words(a + [c] + b) == Words(a) + Words(b)
    decreases |b|
  {
    hide IsAlnum, AllWords;
    if b == [] {
      WordsOneMore(a, c);
      assert a + [c] + b == a + [c];
    } else {
      var front, last := b[..|b| - 1], b[|b| - 1];
      WordsAround(a, c, front);
      WordsOneMore(a + [c] + front, last);
      WordsOneMore(front, last);
      assert a + [c] + front + [last] == a + [c] + b && front + [last] == b;
      assert InWord(a + [c] + front) <==> InWord(front);
    }
  }

  /** Two names are matched exactly when they have the same words, letter case aside. */
  lemma SameNameIffSameWords(a: string, b: string)
    ensures Normalize(a) == Normalize(b) <==> Words(LowerAll(a)) == Words(LowerAll(b))
  {
    WordsOfJoin(Words(LowerAll(a)));
    WordsOfJoin(Words(LowerAll(b)));
  }

  lemma NormalizeIsIdempotent(name: string)
    ensures Normalize(Normalize(name)) == Normalize(name)
  {
    var value := LowerAll(name);
    LowerWords(value);
    LowerJoin(Words(value));
    assert LowerAll(Normalize(name)) == Normalize(name);
    WordsOfJoin(Words(value));
  }
}
