/** `' '.join(...)`, the way the program writes the capitalized sentences out
    (index.py:52, 63), together with its inverse, Python's `str.split(' ')`. */
module SpaceJoin {
  import Transcript

  /** ' '.join(ss): the strings with one space between neighbours, so one
      separator fewer than there are strings and none for no strings. */
  function Join(ss: seq<string>): (r: string)
    ensures ss == [] ==> r == ""
    ensures ss != [] ==> |r| + 1 == Transcript.TotalLength(ss)
  {
    if ss == [] then "" else if |ss| == 1 then ss[0]
    else
      TotalLengthFront(ss);
      ss[0] + " " + Join(ss[1..])
  }

  /** The transcript length, taken from the front. */
  lemma {:induction false} TotalLengthFront(ss: seq<string>)
    requires ss != []
    ensures Transcript.TotalLength(ss) == |ss[0]| + 1 + Transcript.TotalLength(ss[1..])
  {
    if |ss| == 1 {
      assert ss[1..] == [];
    } else {
      var init := ss[..|ss| - 1];
      TotalLengthFront(init);
      assert init[1..] == ss[1..][..|ss[1..]| - 1];
    }
  }

  /** s.split(' '): the pieces between single spaces, empty pieces included. */
  function Split(s: string): (pieces: seq<string>)
    ensures |pieces| >= 1
  {
    if s == [] then [""]
    else
      var rest := Split(s[1..]);
      if s[0] == ' ' then [""] + rest else [[s[0]] + rest[0]] + rest[1..]
  }

  predicate NoSpaces(ss: seq<string>) {
    forall i :: 0 <= i < |ss| ==> ' ' !in ss[i]
  }

  lemma {:induction false} JoinSnoc(ss: seq<string>, x: string)
    requires ss != []
    ensures Join(ss + [x]) == Join(ss) + " " + x
  {
    if |ss| > 1 {
      assert (ss + [x])[1..] == ss[1..] + [x];
      JoinSnoc(ss[1..], x);
    }
  }

  /** The joined text plus one space is exactly what the transcript fold of
      get_transcript builds from the same strings. */
  lemma {:induction false} JoinThenSpaceIsAssembled(ss: seq<string>)
    requires ss != []
    ensures Join(ss) + " " == Transcript.Assembled(ss)
  {
    var init := ss[..|ss| - 1];
    if |ss| == 1 {
      assert init == [];
    } else {
      var last := ss[|ss| - 1];
      JoinThenSpaceIsAssembled(init);
      assert init + [last] == ss;
      JoinSnoc(init, last);
      assert Join(ss) + " " == (Join(init) + " ") + last + " ";
    }
  }

  lemma JoinIsAssembledPrefix(ss: seq<string>)
    requires ss != []
    ensures |Join(ss)| + 1 == Transcript.TotalLength(ss)
    ensures |Transcript.Assembled(ss)| == Transcript.TotalLength(ss)
    ensures Join(ss) == Transcript.Assembled(ss)[..|Join(ss)|]
  {
    JoinThenSpaceIsAssembled(ss);
  }

  /** Every string appears at its offset; between neighbours there is exactly one
      space; nothing precedes the first string and nothing follows the last. */
  lemma {:induction false} JoinAt(ss: seq<string>, i: nat)
    requires i < |ss|
    ensures |Join(ss)| + 1 == Transcript.TotalLength(ss)
    ensures Transcript.TotalLength(ss[..i]) + |ss[i]| <= |Join(ss)|
    ensures Join(ss)[Transcript.TotalLength(ss[..i])..Transcript.TotalLength(ss[..i]) + |ss[i]|] == ss[i]
    ensures i < |ss| - 1 ==> Transcript.TotalLength(ss[..i]) + |ss[i]| < |Join(ss)|
    ensures i < |ss| - 1 ==> Join(ss)[Transcript.TotalLength(ss[..i]) + |ss[i]|] == ' '
    ensures i == |ss| - 1 ==> Transcript.TotalLength(ss[..i]) + |ss[i]| == |Join(ss)|
  {
    var joined, whole := Join(ss), Transcript.Assembled(ss);
    JoinIsAssembledPrefix(ss);
    Transcript.AssembledAt(ss, i);
    var o := Transcript.TotalLength(ss[..i]);
    var e := o + |ss[i]|;
    assert joined[o..e] == whole[o..e];
    if i < |ss| - 1 {
      Transcript.AssembledAt(ss, i + 1);
      assert ss[..i + 1][..i] == ss[..i];
      assert Transcript.TotalLength(ss[..i + 1]) == e + 1;
      assert joined[e] == whole[e];
    } else {
      assert ss[..i] == ss[..|ss| - 1];
    }
  }

  lemma {:induction false} SplitPrefix(a: string, t: string)
    requires ' ' !in a
    ensures Split(a + t) == [a + Split(t)[0]] + Split(t)[1..]
  {
    if a == [] {
      assert a + t == t;
      assert a + Split(t)[0] == Split(t)[0];
      assert [Split(t)[0]] + Split(t)[1..] == Split(t);
    } else {
      assert (a + t)[1..] == a[1..] + t;
      assert a[0] in a;
      SplitPrefix(a[1..], t);
      assert [a[0]] + (a[1..] + Split(t)[0]) == a + Split(t)[0];
    }
  }

  /** Splitting a joined list of space-free strings gives the list back. */
  lemma {:induction false} SplitJoin(ss: seq<string>)
    requires ss != [] && NoSpaces(ss)
    ensures Split(Join(ss)) == ss
  {
    assert ' ' !in ss[0];
    if |ss| == 1 {
      SplitPrefix(ss[0], "");
      assert ss[0] + "" == ss[0];
    } else {
      var t := Join(ss[1..]);
      assert ss[0] + " " + t == ss[0] + (" " + t);
      SplitPrefix(ss[0], " " + t);
      assert (" " + t)[1..] == t;
      assert NoSpaces(ss[1..]) by {
        forall i | 0 <= i < |ss[1..]| ensures ' ' !in ss[1..][i] {
          assert ss[1..][i] == ss[i + 1];
        }
      }
      SplitJoin(ss[1..]);
      assert ss[0] + "" == ss[0];
      assert [ss[0]] + ss[1..] == ss;
    }
  }

  /** Joining the pieces of a split gives the text back, whatever it holds. */
  lemma {:induction false} JoinSplit(s: string)
    ensures Join(Split(s)) == s
  {
    if s != [] {
      var rest := Split(s[1..]);
      JoinSplit(s[1..]);
      if s[0] == ' ' {
        assert ([""] + rest)[1..] == rest;
        assert s == [' '] + s[1..];
      } else if |rest| == 1 {
        assert s == [s[0]] + s[1..];
      } else {
        var pieces := [[s[0]] + rest[0]] + rest[1..];
        assert pieces[1..] == rest[1..];
        assert Join(rest) == rest[0] + " " + Join(rest[1..]);
        assert s == [s[0]] + s[1..];
      }
    }
  }
}
