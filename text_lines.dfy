/** Lists of configuration lines: concatenating per-port blocks, and
    Python's `sep.join(lines)` and `text.split(sep)` for a one-character
    separator. */
module TextLines {

  /** The lines of all `blocks`, block after block. */
  function Flatten(blocks: seq<seq<string>>): seq<string>
  {
    if blocks == [] then [] else Flatten(blocks[..|blocks| - 1]) + blocks[|blocks| - 1]
  }

  lemma FlattenSnoc(blocks: seq<seq<string>>, block: seq<string>)
    ensures Flatten(blocks + [block]) == Flatten(blocks) + block
  {
  }


  predicate Uniform(blocks: seq<seq<string>>, size: nat) {
    forall j :: 0 <= j < |blocks| ==> |blocks[j]| == size
  }

  /** Blocks of `size` lines each flatten to `size` lines per block. */
  lemma {:induction false} FlattenLength(blocks: seq<seq<string>>, size: nat)
    requires Uniform(blocks, size)
    ensures |Flatten(blocks)| == size * |blocks|
  {
    if blocks != [] {
      var n := |blocks|;
      FlattenLength(blocks[..n - 1], size);
      assert size * (n - 1) + size == size * n;
    }
  }

  lemma MulStep(size: nat, i: nat, n: nat)
    requires i < n
    ensures 0 <= size * i && size * i + size <= size * n
  {
    assert size * n - (size * i + size) == size * (n - i - 1);
  }

  /** Block `i` of a list of equal-sized blocks starts at line `size * i`. */
  lemma {:induction false} FlattenBlockAt(blocks: seq<seq<string>>, size: nat, i: nat)
    requires Uniform(blocks, size) && i < |blocks|
    ensures size * i + size <= |Flatten(blocks)|
    ensures Flatten(blocks)[size * i .. size * i + size] == blocks[i]
  {
    var n := |blocks|;
    var init := blocks[..n - 1];
    FlattenLength(init, size);
    FlattenLength(blocks, size);
    if i < n - 1 {
      FlattenBlockAt(init, size, i);
      MulStep(size, i, n - 1);
      SliceOfPrefix(Flatten(init), blocks[n - 1], size * i, size * i + size);
    } else {
      SliceOfSuffix(Flatten(init), blocks[n - 1], 0, size);
    }
  }

  /** A slice of the middle part of `pre + mid + post`. */
  lemma SliceOfMiddle(pre: seq<string>, mid: seq<string>, post: seq<string>, lo: nat, hi: nat)
    requires lo <= hi <= |mid|
    ensures |pre| + hi <= |pre + mid + post|
    ensures (pre + mid + post)[|pre| + lo .. |pre| + hi] == mid[lo..hi]
  {
  }


  /** Two lines with a common prefix are equal exactly when the rests are. */
  lemma PrefixCancel(prefix: string, x: string, y: string)
    ensures prefix + x == prefix + y <==> x == y
  {
    if prefix + x == prefix + y {
      assert (prefix + x)[|prefix|..] == x;
      assert (prefix + y)[|prefix|..] == y;
    }
  }

  lemma ConcatAssoc(a: seq<string>, b: seq<string>, c: seq<string>)
    ensures a + b + c == a + (b + c)
  {
  }

  /** A slice that lies within the first part of a concatenation. */
  lemma SliceOfPrefix(front: seq<string>, back: seq<string>, lo: nat, hi: nat)
    requires lo <= hi <= |front|
    ensures (front + back)[lo..hi] == front[lo..hi]
  {
  }


  /** A slice that lies within the second part of a concatenation. */
  lemma SliceOfSuffix(front: seq<string>, back: seq<string>, lo: nat, hi: nat)
    requires lo <= hi <= |back|
    ensures (front + back)[|front| + lo .. |front| + hi] == back[lo..hi]
  {
  }


  predicate NoSeparator(lines: seq<string>, sep: char) {
    forall j :: 0 <= j < |lines| ==> sep !in lines[j]
  }

  lemma NoSeparatorConcat(a: seq<string>, b: seq<string>, sep: char)
    requires NoSeparator(a, sep) && NoSeparator(b, sep)
    ensures NoSeparator(a + b, sep)
  {
  }

  lemma {:induction false} FlattenNoSeparator(blocks: seq<seq<string>>, sep: char)
    requires forall j :: 0 <= j < |blocks| ==> NoSeparator(blocks[j], sep)
    ensures NoSeparator(Flatten(blocks), sep)
  {
    if blocks != [] {
      FlattenNoSeparator(blocks[..|blocks| - 1], sep);
      NoSeparatorConcat(Flatten(blocks[..|blocks| - 1]), blocks[|blocks| - 1], sep);
    }
  }

  /** Python's `sep.join(lines)`: the lines with one `sep` between neighbours. */
  function Join(lines: seq<string>, sep: char): string
  {
    if |lines| == 0 then ""
    else if |lines| == 1 then lines[0]
    else lines[0] + [sep] + Join(lines[1..], sep)
  }

  /** Python's `text.split(sep)`: the maximal separator-free pieces between
      occurrences of `sep`; the empty text splits into one empty piece. */
  function Split(text: string, sep: char): (pieces: seq<string>)
    ensures |pieces| >= 1
    ensures NoSeparator(pieces, sep)
    decreases |text|
  {
    if text == [] then [""]
    else
      var rest := Split(text[1..], sep);
      if text[0] == sep then [""] + rest
      else [[text[0]] + rest[0]] + rest[1..]
  }

  lemma {:induction false} SplitSeparatorFree(line: string, sep: char)
    requires sep !in line
    ensures Split(line, sep) == [line]
    decreases |line|
  {
    if line != [] {
      SplitSeparatorFree(line[1..], sep);
      assert [line[0]] + line[1..] == line;
    }
  }

  lemma {:induction false} SplitAfterLine(line: string, rest: string, sep: char)
    requires sep !in line
    ensures Split(line + [sep] + rest, sep) == [line] + Split(rest, sep)
    decreases |line|
  {
    var text := line + [sep] + rest;
    if line == [] {
      assert text[1..] == rest;
    } else {
      assert text[1..] == line[1..] + [sep] + rest;
      SplitAfterLine(line[1..], rest, sep);
      assert [line[0]] + line[1..] == line;
    }
  }

  /** Joining the pieces of a split gives the text back, so `Split` is the
      inverse of `Join` on every text. */
  lemma {:induction false} JoinSplit(text: string, sep: char)
    ensures Join(Split(text, sep), sep) == text
    decreases |text|
  {
    if text != [] {
      var rest := Split(text[1..], sep);
      JoinSplit(text[1..], sep);
      if text[0] == sep {
        assert Split(text, sep) == [""] + rest;
        assert ([""] + rest)[1..] == rest;
      } else {
        var pieces := [[text[0]] + rest[0]] + rest[1..];
        assert Split(text, sep) == pieces;
        assert pieces[1..] == rest[1..];
        if |rest| == 1 {
          assert Join(pieces, sep) == [text[0]] + Join(rest, sep);
        } else {
          assert Join(rest, sep) == rest[0] + [sep] + Join(rest[1..], sep);
          assert Join(pieces, sep) == [text[0]] + Join(rest, sep);
        }
      }
      assert [text[0]] + text[1..] == text;
    }
  }

  /** Splitting the joined text gives the lines back, provided there is at
      least one line and none of them contains the separator. */
  lemma {:induction false} SplitJoin(lines: seq<string>, sep: char)
    requires |lines| >= 1 && NoSeparator(lines, sep)
    ensures Split(Join(lines, sep), sep) == lines
    decreases |lines|
  {
    if |lines| == 1 {
      SplitSeparatorFree(lines[0], sep);
    } else {
      SplitAfterLine(lines[0], Join(lines[1..], sep), sep);
      SplitJoin(lines[1..], sep);
    }
  }

  /** The joined text ends with the last line: no separator is added after it. */
  lemma {:induction false} JoinEndsWithLastLine(lines: seq<string>, sep: char)
    requires |lines| >= 1
    ensures var text := Join(lines, sep);
      |lines[|lines| - 1]| <= |text| && text[|text| - |lines[|lines| - 1]|..] == lines[|lines| - 1]
    decreases |lines|
  {
    if |lines| > 1 {
      JoinEndsWithLastLine(lines[1..], sep);
    }
  }
}
