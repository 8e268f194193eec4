/** Paged reading (tools/files/read_file.py and `paged` in tools/registry/tool_context.py): how much of
    a file one reply shows, and why following its hint from the start shows all of it, once, in order. */
module Paging {
  import opened Numerals

  /** What one reply shows: some lines, the first one's predecessor, the last one, and how many exist. */
  datatype Page = Page(kept: seq<string>, first: int, last: int, total: int) {
    predicate More() {
      last < total
    }
  }

  function Clamp(i: int, n: nat): nat {
    if i < 0 then (if n + i < 0 then 0 else n + i) else if i > n then n else i
  }

  /** Python's `xs[from:to]`. */
  function Slice<T>(xs: seq<T>, from: int, to: int): seq<T> {
    if Clamp(from, |xs|) <= Clamp(to, |xs|) then xs[Clamp(from, |xs|)..Clamp(to, |xs|)] else []
  }

  function NumberedLine(number: int, line: string): string {
    Decimal(number) + "\t" + line
  }

  function Numbered(lines: seq<string>, offset: int): (numbered: seq<string>)
    ensures |numbered| == |lines|
    ensures forall i :: 0 <= i < |lines| ==> numbered[i] == NumberedLine(offset + i + 1, lines[i])
  {
    seq(|lines|, i requires 0 <= i < |lines| => NumberedLine(offset + i + 1, lines[i]))
  }

  /** The lines whose running total, counting a newline each, is within the limit. */
  function Fitting(numbered: seq<string>, before: int, chars: int): seq<string> {
    if numbered == [] then []
    else
      var total := before + |numbered[0]| + 1;
      (if total <= chars then [numbered[0]] else []) + Fitting(numbered[1..], total, chars)
  }

  function Paged(lines: seq<string>, offset: int, total: int, chars: int): Page {
    var numbered := Numbered(lines, offset);
    var fitting := Fitting(numbered, 0, chars);
    var kept := if fitting != [] || numbered == [] then fitting else [Slice(numbered[0], 0, chars)];
    Page(kept, offset, offset + |kept|, total)
  }

  function EndOf(lines: seq<string>, offset: int, limit: int): int {
    if limit <= 0 then |lines| else if |lines| < offset + limit then |lines| else offset + limit
  }

  function ReadFile(lines: seq<string>, offset: int, limit: int, chars: int): Page {
    Paged(Slice(lines, offset, EndOf(lines, offset, limit)), offset, |lines|, chars)
  }

  function Joined(kept: seq<string>): string {
    if kept == [] then "" else if |kept| == 1 then kept[0] else Joined(kept[..|kept| - 1]) + "\n" + kept[|kept| - 1]
  }

  /** The characters of some lines, counting a newline each. */
  function Chars(lines: seq<string>): nat {
    if lines == [] then 0 else |lines[0]| + 1 + Chars(lines[1..])
  }

  // ---------------------------------------------------------------------------------------------
  // One page.

  lemma {:induction false} NothingFits(numbered: seq<string>, before: int, chars: int)
    requires before >= chars
    ensures Fitting(numbered, before, chars) == []
  {
    if numbered != [] {
      NothingFits(numbered[1..], before + |numbered[0]| + 1, chars);
    }
  }

  /** The running totals rise, so what fits is a prefix, and the longest one that fits. */
  lemma {:induction false} FittingIsLongestPrefix(numbered: seq<string>, before: int, chars: int)
    ensures var fitting := Fitting(numbered, before, chars);
      && |fitting| <= |numbered| && fitting == numbered[..|fitting|]
      && (fitting != [] ==> before + Chars(fitting) <= chars)
      && (|fitting| < |numbered| ==> before + Chars(fitting) + |numbered[|fitting|]| + 1 > chars)
  {
    if numbered != [] {
      var total := before + |numbered[0]| + 1;
      if total <= chars {
        FittingIsLongestPrefix(numbered[1..], total, chars);
        var rest := Fitting(numbered[1..], total, chars);
        assert Fitting(numbered, before, chars) == [numbered[0]] + rest;
        assert ([numbered[0]] + rest)[1..] == rest;
        assert numbered[..|rest| + 1] == [numbered[0]] + numbered[1..][..|rest|];
      } else {
        NothingFits(numbered[1..], total, chars);
      }
    }
  }

  lemma {:induction false} CharsOfAppend(lines: seq<string>, last: string)
    ensures Chars(lines + [last]) == Chars(lines) + |last| + 1
  {
    if lines == [] {
      assert [] + [last] == [last] && [last][1..] == [];
    } else {
      assert (lines + [last])[1..] == lines[1..] + [last];
      CharsOfAppend(lines[1..], last);
    }
  }

  lemma {:induction false} JoinedLength(kept: seq<string>)
    ensures kept != [] ==> |Joined(kept)| == Chars(kept) - 1
    ensures kept == [] ==> |Joined(kept)| == 0
  {
    if |kept| == 1 {
      assert kept[1..] == [];
    } else if |kept| > 1 {
      var n := |kept| - 1;
      JoinedLength(kept[..n]);
      CharsOfAppend(kept[..n], kept[n]);
      assert kept == kept[..n] + [kept[n]];
    }
  }

  /** The line numbered as the reply shows it. */
  function Shown(lines: seq<string>, i: nat): string
    requires i < |lines|
  {
    NumberedLine(i + 1, lines[i])
  }

  /** What a page asked for at an offset inside the file shows. */
  ghost predicate Shows(page: Page, lines: seq<string>, offset: nat, limit: int, chars: int)
    requires offset < |lines|
  {
    && page.first == offset < page.last <= |lines| == page.total && page.last == offset + |page.kept|
    && (limit > 0 ==> page.last <= offset + limit)
    && (forall i :: 0 <= i < |page.kept| ==>
          page.kept[i] == Shown(lines, offset + i) ||
          (|page.kept| == 1 && |Shown(lines, offset)| > chars && page.kept[0] == Slice(Shown(lines, offset), 0, chars)))
  }

  /** The numbered lines a page is cut from. */
  lemma SliceShows(lines: seq<string>, offset: nat, limit: int)
    requires offset < |lines|
    ensures var numbered := Numbered(Slice(lines, offset, EndOf(lines, offset, limit)), offset);
      && 0 < |numbered| <= |lines| - offset && (limit > 0 ==> |numbered| <= limit)
      && (limit <= 0 ==> |numbered| == |lines| - offset)
      && forall i :: 0 <= i < |numbered| ==> numbered[i] == Shown(lines, offset + i)
  {
    assert Slice(lines, offset, EndOf(lines, offset, limit)) == lines[offset..EndOf(lines, offset, limit)];
  }

  lemma SliceWhole(s: string, chars: int)
    requires |s| <= chars
    ensures Slice(s, 0, chars) == s
  {
  }

  /** A page inside the file is never empty, stays within the file and the limit, and shows whole
      lines; only a line longer than the reply may be is cut, and then it is shown alone. */
  lemma PageShows(lines: seq<string>, offset: nat, limit: int, chars: int)
    requires offset < |lines|
    ensures Shows(ReadFile(lines, offset, limit, chars), lines, offset, limit, chars)
  {
    hide Numbered, Slice, EndOf, NumberedLine, Fitting;
    var numbered := Numbered(Slice(lines, offset, EndOf(lines, offset, limit)), offset);
    SliceShows(lines, offset, limit);
    FittingIsLongestPrefix(numbered, 0, chars);
    var fitting := Fitting(numbered, 0, chars);
    assert forall i :: 0 <= i < |fitting| ==> fitting[i] == numbered[i];
    if |numbered[0]| <= chars {
      SliceWhole(numbered[0], chars);
    }
  }

  /** The body of a page fits the reply. */
  lemma PageFits(lines: seq<string>, offset: int, limit: int, chars: nat)
    ensures |Joined(ReadFile(lines, offset, limit, chars).kept)| <= chars
  {
    var page := ReadFile(lines, offset, limit, chars);
    FittingIsLongestPrefix(Numbered(Slice(lines, offset, EndOf(lines, offset, limit)), offset), 0, chars);
    JoinedLength(page.kept);
  }

  /** A page that does not reach the end of the file stops only at the limit, when one is given, or
      because the next line would not fit. */
  lemma PageIsFull(lines: seq<string>, offset: nat, limit: int, chars: int)
    requires offset < |lines|
    ensures var page := ReadFile(lines, offset, limit, chars);
      page.More() && !(limit > 0 && page.last == offset + limit) ==>
        Chars(page.kept) + |Shown(lines, page.last)| + 1 > chars
  {
    hide Numbered, Slice, NumberedLine, Fitting;
    var numbered := Numbered(Slice(lines, offset, EndOf(lines, offset, limit)), offset);
    SliceShows(lines, offset, limit);
    SliceReaches(lines, offset, limit);
    FittingIsLongestPrefix(numbered, 0, chars);
    PageShows(lines, offset, limit, chars);
    var page := ReadFile(lines, offset, limit, chars);
    if page.More() && !(limit > 0 && page.last == offset + limit) {
      assert numbered[|page.kept|] == Shown(lines, page.last);
      if Fitting(numbered, 0, chars) == [] {
        assert page.kept[1..] == [];
        CutLength(numbered[0], chars);
      }
    }
  }

  lemma CutLength(s: string, chars: int)
    ensures chars >= 0 ==> |Slice(s, 0, chars)| == if |s| < chars then |s| else chars
  {
  }

  /** What a page is cut from goes on to the limit or to the end of the file. */
  lemma SliceReaches(lines: seq<string>, offset: nat, limit: int)
    requires offset < |lines|
    ensures |Numbered(Slice(lines, offset, EndOf(lines, offset, limit)), offset)| ==
            if limit <= 0 || limit >= |lines| - offset then |lines| - offset else limit
  {
  }

  // ---------------------------------------------------------------------------------------------
  // Following the hint.

  /** The pages got by calling again with the offset each reply names. */
  function Follow(lines: seq<string>, offset: nat, limit: int, chars: int): seq<Page>
    decreases |lines| - offset
  {
    var page := ReadFile(lines, offset, limit, chars);
    if offset >= |lines| then [page]
    else
      PageShows(lines, offset, limit, chars);
      if page.More() then [page] + Follow(lines, page.last, limit, chars) else [page]
  }

  /** Each page starts where the one before it ended, the first at the offset, and the last page ends
      with the last line. */
  ghost predicate Tiles(pages: seq<Page>, offset: int, total: int) {
    && pages != [] && pages[0].first == offset && pages[|pages| - 1].last == total
    && (forall i :: 0 <= i < |pages| - 1 ==> pages[i + 1].first == pages[i].last)
    && (forall i :: 0 <= i < |pages| ==> pages[i].last == pages[i].first + |pages[i].kept|)
  }

  /** Reading on reaches the end in at most one call a line, and its pages tile the file. */
  lemma {:induction false} FollowTiles(lines: seq<string>, offset: nat, limit: int, chars: int)
    requires offset <= |lines|
    ensures var pages := Follow(lines, offset, limit, chars);
      && Tiles(pages, offset, |lines|) && !pages[|pages| - 1].More()
      && |pages| <= (if offset < |lines| then |lines| - offset else 1)
      && forall p :: p in pages ==> offset < |lines| ==> p.kept != []
    decreases |lines| - offset
  {
    if offset < |lines| {
      PageShows(lines, offset, limit, chars);
      var page := ReadFile(lines, offset, limit, chars);
      if page.More() {
        FollowTiles(lines, page.last, limit, chars);
        var rest := Follow(lines, page.last, limit, chars);
        assert Follow(lines, offset, limit, chars) == [page] + rest;
        TilesCons(page, rest, |lines|);
      }
    }
  }

  lemma TilesCons(page: Page, rest: seq<Page>, total: int)
    requires Tiles(rest, page.last, total) && page.last == page.first + |page.kept|
    ensures Tiles([page] + rest, page.first, total)
  {
    var pages := [page] + rest;
    forall i | 0 <= i < |pages| - 1
      ensures pages[i + 1].first == pages[i].last
    {
      assert pages[i + 1] == rest[i];
    }
  }

  /** The lines of all pages, one after the other. */
  function AllKept(pages: seq<Page>): seq<string> {
    if pages == [] then [] else pages[0].kept + AllKept(pages[1..])
  }

  /** With no line too long for a reply, the pages together show every line, numbered, in order. */
  lemma {:induction false} FollowShowsEverything(lines: seq<string>, offset: nat, limit: int, chars: int)
    requires offset <= |lines|
    requires forall i :: 0 <= i < |lines| ==> |Shown(lines, i)| <= chars
    ensures AllKept(Follow(lines, offset, limit, chars)) == Numbered(lines, 0)[offset..]
    decreases |lines| - offset
  {
    hide ReadFile, NumberedLine;
    var page := ReadFile(lines, offset, limit, chars);
    var pages := Follow(lines, offset, limit, chars);
    if offset == |lines| {
      EndOfFile(lines, limit, chars);
      assert pages[1..] == [];
    } else {
      PageShows(lines, offset, limit, chars);
      assert page.kept == Numbered(lines, 0)[offset..page.last];
      if page.More() {
        FollowShowsEverything(lines, page.last, limit, chars);
        assert pages[1..] == Follow(lines, page.last, limit, chars);
      } else {
        assert pages[1..] == [];
      }
    }
  }

  lemma EndOfFile(lines: seq<string>, limit: int, chars: int)
    ensures ReadFile(lines, |lines|, limit, chars).kept == [] && !ReadFile(lines, |lines|, limit, chars).More()
  {
    assert Slice(lines, |lines|, |lines|) == [];
  }
}
