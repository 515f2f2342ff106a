/**
 * The word count of a chat message (messageCreate in bot.js): the content is
 * trimmed, split on runs of whitespace and the empty pieces are dropped. What
 * is left are the maximal runs of non-whitespace characters: leading
 * whitespace yields no word, a whitespace-free run followed by whitespace is
 * the first word, and a whitespace-free message is one word.
 */
module Words {

  /**
   * The characters of the JavaScript class \s, which trim() also strips:
   * the ECMAScript WhiteSpace and LineTerminator code points.
   */
  predicate IsSpace(c: char) {
    var u := c as int;
    || 0x09 <= u <= 0x0D          // tab, line feed, vertical tab, form feed, carriage return
    || u == 0x20 || u == 0xA0     // space, no-break space
    || u == 0x1680                // Ogham space mark
    || 0x2000 <= u <= 0x200A      // en quad .. hair space
    || u == 0x2028 || u == 0x2029 // line and paragraph separators
    || u == 0x202F || u == 0x205F || u == 0x3000
    || u == 0xFEFF                // byte order mark
  }

  /** No character of s is whitespace. */
  ghost predicate Solid(s: string) {
    forall i :: 0 <= i < |s| ==> !IsSpace(s[i])
  }

  /**
   * The words of s, where cur is the part of a word read so far: every run of
   * non-whitespace characters becomes one word, in order.
   */
  function Split(s: string, cur: string): seq<string>
    decreases |s|
  {
    if |s| == 0 then (if cur == [] then [] else [cur])
    else if IsSpace(s[0]) then (if cur == [] then [] else [cur]) + Split(s[1..], [])
    else Split(s[1..], cur + [s[0]])
  }

  /** content.trim().split(/\s+/).filter(word => word.length > 0) */
  function Tokens(s: string): (words: seq<string>)
    ensures |words| == WordStarts(s, true)
    ensures forall k :: 0 <= k < |words| ==> |words[k]| > 0 && Solid(words[k])
    ensures Concat(words) == NonSpace(s)
  {
    SplitCountsStarts(s, []);
    SplitKeepsCharacters(s, []);
    SplitWordsSolid(s, []);
    Split(s, [])
  }

  /** The words joined back together with nothing between them. */
  function Concat(ws: seq<string>): string {
    if ws == [] then [] else ws[0] + Concat(ws[1..])
  }

  /** The characters of s that are not whitespace, in order. */
  function NonSpace(s: string): string {
    if s == [] then []
    else if IsSpace(s[0]) then NonSpace(s[1..])
    else [s[0]] + NonSpace(s[1..])
  }

  /**
   * The number of places where a word begins: a non-whitespace character at
   * the start (when afterSpace) or right after a whitespace character.
   */
  function WordStarts(s: string, afterSpace: bool): nat {
    if s == [] then 0
    else (if afterSpace && !IsSpace(s[0]) then 1 else 0) + WordStarts(s[1..], IsSpace(s[0]))
  }

  /** Every word is non-empty and free of whitespace. */
  lemma {:induction false} SplitWordsSolid(s: string, cur: string)
    requires Solid(cur)
    ensures forall k :: 0 <= k < |Split(s, cur)| ==> |Split(s, cur)[k]| > 0 && Solid(Split(s, cur)[k])
    decreases |s|
  {
    if |s| == 0 {
    } else if IsSpace(s[0]) {
      SplitWordsSolid(s[1..], []);
    } else {
      SplitWordsSolid(s[1..], cur + [s[0]]);
    }
  }

  /** Reading a whitespace-free run adds it to the word being read. */
  lemma {:induction false} SplitSolidPrefix(w: string, rest: string, cur: string)
    requires Solid(w)
    ensures Split(w + rest, cur) == Split(rest, cur + w)
    decreases |w|
  {
    if w == [] {
      assert w + rest == rest && cur + w == cur;
    } else {
      assert (w + rest)[0] == w[0] && (w + rest)[1..] == w[1..] + rest;
      SplitSolidPrefix(w[1..], rest, cur + [w[0]]);
      assert cur + [w[0]] + w[1..] == cur + w;
    }
  }

  /** Whitespace at the start of a message yields no word. */
  lemma TokensLeadingSpace(c: char, rest: string)
    requires IsSpace(c)
    ensures Tokens([c] + rest) == Tokens(rest)
  {
    assert ([c] + rest)[0] == c && ([c] + rest)[1..] == rest;
  }

  /** A non-empty whitespace-free run ended by whitespace is the first word; the rest follow. */
  lemma TokensFirstWord(w: string, c: char, rest: string)
    requires w != [] && Solid(w) && IsSpace(c)
    ensures Tokens(w + [c] + rest) == [w] + Tokens(rest)
  {
    assert w + [c] + rest == w + ([c] + rest);
    SplitSolidPrefix(w, [c] + rest, []);
    assert [] + w == w;
    assert ([c] + rest)[0] == c && ([c] + rest)[1..] == rest;
  }

  /** A non-empty whitespace-free message is one word. */
  lemma TokensSolid(w: string)
    requires w != [] && Solid(w)
    ensures Tokens(w) == [w]
  {
    SplitSolidPrefix(w, [], []);
    assert w + [] == w && [] + w == w;
  }

  /** Joining the words gives back every non-whitespace character of the message and nothing else. */
  lemma {:induction false} SplitKeepsCharacters(s: string, cur: string)
    ensures Concat(Split(s, cur)) == cur + NonSpace(s)
    decreases |s|
  {
    if |s| == 0 {
      if cur != [] {
        assert Concat([cur]) == cur + Concat([]);
      }
    } else if IsSpace(s[0]) {
      SplitKeepsCharacters(s[1..], []);
      var rest := Split(s[1..], []);
      if cur != [] {
        assert ([cur] + rest)[0] == cur && ([cur] + rest)[1..] == rest;
      } else {
        assert [] + rest == rest;
      }
    } else {
      SplitKeepsCharacters(s[1..], cur + [s[0]]);
      assert cur + [s[0]] + NonSpace(s[1..]) == cur + ([s[0]] + NonSpace(s[1..]));
    }
  }

  /** There are exactly as many words as places where a word begins. */
  lemma {:induction false} SplitCountsStarts(s: string, cur: string)
    ensures |Split(s, cur)| == if cur == [] then WordStarts(s, true) else WordStarts(s, false) + 1
    decreases |s|
  {
    if |s| == 0 {
    } else if IsSpace(s[0]) {
      SplitCountsStarts(s[1..], []);
    } else {
      SplitCountsStarts(s[1..], cur + [s[0]]);
    }
  }

  /** A message made of whitespace only has no non-whitespace characters, and conversely. */
  lemma {:induction false} NonSpaceEmpty(s: string)
    ensures NonSpace(s) == [] <==> forall i :: 0 <= i < |s| ==> IsSpace(s[i])
  {
    if s != [] {
      NonSpaceEmpty(s[1..]);
      assert forall i :: 1 <= i < |s| ==> s[i] == s[1..][i - 1];
    }
  }

  /** A joined list of non-empty words is empty only when there are no words. */
  lemma ConcatEmpty(ws: seq<string>)
    requires forall k :: 0 <= k < |ws| ==> |ws[k]| > 0
    ensures Concat(ws) == [] <==> ws == []
  {
    if ws != [] {
      assert |Concat(ws)| >= |ws[0]| > 0;
    }
  }

  /**
   * The word count of messageCreate: the number of words, which is the
   * number of places where a word begins; it is zero exactly when the
   * message is whitespace only.
   */
  function WordCount(s: string): (n: nat)
    ensures n == WordStarts(s, true)
    ensures n == 0 <==> forall i :: 0 <= i < |s| ==> IsSpace(s[i])
  {
    ConcatEmpty(Tokens(s));
    NonSpaceEmpty(s);
    |Tokens(s)|
  }
}
