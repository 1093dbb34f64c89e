/**
 * Go's path.Clean, written out after the four lexical rules its
 * documentation gives: collapse runs of slashes, drop "." elements, let ".."
 * cancel the element before it, and drop ".." at the start of a rooted path.
 * The result ends in a slash only when it is "/", and an empty result
 * becomes ".".
 *
 * The model splits the path at '/' and folds the elements into a stack of
 * kept elements instead of rewriting the byte buffer in place as the Go
 * library does.
 */
module GoPath {
  import Text

  /** Applies one path element to the stack of elements kept so far. */
  function Step(stack: seq<string>, elem: string, rooted: bool): seq<string> {
    if elem == "" || elem == "." then stack
    else if elem == ".." then
      if |stack| > 0 && stack[|stack| - 1] != ".." then stack[..|stack| - 1]
      else if rooted then stack
      else stack + [".."]
    else stack + [elem]
  }

  function Reduce(stack: seq<string>, elems: seq<string>, rooted: bool): seq<string>
    decreases |elems|
  {
    if elems == [] then stack else Reduce(Step(stack, elems[0], rooted), elems[1..], rooted)
  }

  function JoinElems(elems: seq<string>): string {
    if elems == [] then "" else Text.Join(elems, '/')
  }

  /** The shortest lexically equivalent form of `p`. */
  function Clean(p: string): string {
    if p == [] then "."
    else
      var rooted := p[0] == '/';
      var kept := Reduce([], Text.Split(p, '/'), rooted);
      if rooted then "/" + JoinElems(kept)
      else if kept == [] then "."
      else JoinElems(kept)
  }

  /** A stack Clean can produce: real elements only, ".." only in front and never when rooted. */
  ghost predicate Canonical(stack: seq<string>, rooted: bool) {
    && (forall i :: 0 <= i < |stack| ==> stack[i] != "" && stack[i] != "." && '/' !in stack[i])
    && (rooted ==> forall i :: 0 <= i < |stack| ==> stack[i] != "..")
    && (forall i, j :: 0 <= i < j < |stack| && stack[j] == ".." ==> stack[i] == "..")
  }

  lemma StepCanonical(stack: seq<string>, elem: string, rooted: bool)
    requires Canonical(stack, rooted) && '/' !in elem
    ensures Canonical(Step(stack, elem, rooted), rooted)
  {
  }

  lemma {:induction false} ReduceCanonical(stack: seq<string>, elems: seq<string>, rooted: bool)
    requires Canonical(stack, rooted)
    requires forall i :: 0 <= i < |elems| ==> '/' !in elems[i]
    ensures Canonical(Reduce(stack, elems, rooted), rooted)
    decreases |elems|
  {
    if elems != [] {
      StepCanonical(stack, elems[0], rooted);
      ReduceCanonical(Step(stack, elems[0], rooted), elems[1..], rooted);
    }
  }

  /** Reducing elements that already form a canonical stack keeps every one of them. */
  lemma {:induction false} ReduceKeepsCanonical(stack: seq<string>, elems: seq<string>, rooted: bool)
    requires Canonical(stack + elems, rooted)
    ensures Reduce(stack, elems, rooted) == stack + elems
    decreases |elems|
  {
    if elems != [] {
      var e := elems[0];
      assert (stack + elems)[|stack|] == e;
      if e == ".." {
        if |stack| > 0 {
          assert (stack + elems)[|stack| - 1] == stack[|stack| - 1];
        }
      }
      assert Step(stack, e, rooted) == stack + [e];
      assert stack + [e] + elems[1..] == stack + elems;
      ReduceKeepsCanonical(stack + [e], elems[1..], rooted);
    }
  }

  lemma {:induction false} SplitNoSep(a: string, sep: char)
    requires sep !in a
    ensures Text.Split(a, sep) == [a]
  {
    if a != [] {
      SplitNoSep(a[1..], sep);
      assert [a[0]] + a[1..] == a;
    }
  }

  lemma {:induction false} SplitAtSep(a: string, b: string, sep: char)
    requires sep !in a
    ensures Text.Split(a + [sep] + b, sep) == [a] + Text.Split(b, sep)
  {
    if a == [] {
      assert a + [sep] + b == [sep] + b;
      assert ([sep] + b)[1..] == b;
    } else {
      assert (a + [sep] + b)[1..] == a[1..] + [sep] + b;
      SplitAtSep(a[1..], b, sep);
      assert [a[0]] + a[1..] == a;
    }
  }

  lemma {:induction false} SplitJoin(parts: seq<string>, sep: char)
    requires |parts| >= 1
    requires forall i :: 0 <= i < |parts| ==> sep !in parts[i]
    ensures Text.Split(Text.Join(parts, sep), sep) == parts
    decreases |parts|
  {
    if |parts| == 1 {
      SplitNoSep(parts[0], sep);
    } else {
      SplitJoin(parts[1..], sep);
      SplitAtSep(parts[0], Text.Join(parts[1..], sep), sep);
      assert [parts[0]] + parts[1..] == parts;
    }
  }

  lemma CanonicalOfEmpty(rooted: bool)
    ensures Canonical([], rooted)
  {
  }

  lemma JoinHeadNotSlash(elems: seq<string>)
    requires elems != [] && elems[0] != ""
    ensures JoinElems(elems) != [] && JoinElems(elems)[0] == elems[0][0]
  {
    if |elems| > 1 {
      assert JoinElems(elems) == elems[0] + (['/'] + Text.Join(elems[1..], '/'));
    }
  }

  /** What Clean returns: never empty, rooted exactly when the input is. */
  lemma CleanShape(p: string)
    ensures Clean(p) != []
    ensures Clean(p)[0] == '/' <==> (p != [] && p[0] == '/')
    ensures Clean(p) == "." <==>
      (p == [] || (p[0] != '/' && Reduce([], Text.Split(p, '/'), false) == []))
  {
    if p != [] {
      var rooted := p[0] == '/';
      var kept := Reduce([], Text.Split(p, '/'), rooted);
      CanonicalOfEmpty(rooted);
      ReduceCanonical([], Text.Split(p, '/'), rooted);
      if !rooted && kept != [] {
        JoinHeadNotSlash(kept);
        assert kept[0] != "" && kept[0][0] != '/' by {
          assert '/' !in kept[0];
        }
        if |kept[0]| == 1 && |kept| == 1 {
          assert kept[0] != ".";
        }
        assert JoinElems(kept) != ".";
      }
    }
  }

  /** Cleaning a clean path changes nothing. */
  lemma CleanIdempotent(p: string)
    ensures Clean(Clean(p)) == Clean(p)
  {
    if p == [] {
      SplitNoSep(".", '/');
      assert Reduce([], ["."], false) == Reduce([], [], false);
    } else {
      var rooted := p[0] == '/';
      var kept := Reduce([], Text.Split(p, '/'), rooted);
      CanonicalOfEmpty(rooted);
      ReduceCanonical([], Text.Split(p, '/'), rooted);
      if kept == [] {
        if rooted {
          assert Clean(p) == "/";
          assert Text.Split("/", '/') == ["", ""];
        } else {
          SplitNoSep(".", '/');
          assert Reduce([], ["."], false) == Reduce([], [], false);
        }
      } else {
        SplitJoin(kept, '/');
        ReduceKeepsCanonical([], kept, rooted);
        assert [] + kept == kept;
        if rooted {
          RootedKept(p, kept);
        } else {
          JoinHeadNotSlash(kept);
          CleanShape(p);
        }
      }
    }
  }

  /** A rooted path whose kept elements are `kept` cleans to a path that splits into "" and `kept`. */
  lemma RootedKept(p: string, kept: seq<string>)
    requires p != [] && p[0] == '/' && kept == Reduce([], Text.Split(p, '/'), true) && kept != []
    requires Text.Split(Text.Join(kept, '/'), '/') == kept
    requires Reduce([], kept, true) == kept
    ensures Clean(Clean(p)) == Clean(p)
  {
    var c := Clean(p);
    assert c == ['/'] + JoinElems(kept);
    assert c[1..] == JoinElems(kept);
    assert Text.Split(c, '/') == [[]] + kept;
    assert Reduce([], Text.Split(c, '/'), true) == Reduce([], kept, true);
  }
}
