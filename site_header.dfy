/** The breadcrumbs of the page header, computed from the pathname. */
module SiteHeader {
  import Strings

  /** The pieces that are not blank once trimmed, in order. */
  function NonBlank(pieces: seq<string>): (r: seq<string>)
    ensures |r| <= |pieces|
    ensures forall p :: p in r <==> p in pieces && !Strings.IsBlank(p)
  {
    if |pieces| == 0 then []
    else (if Strings.IsBlank(pieces[0]) then [] else [pieces[0]]) + NonBlank(pieces[1..])
  }

  lemma NonBlankCons(p: string, ps: seq<string>)
    ensures NonBlank([p] + ps) == (if Strings.IsBlank(p) then [] else [p]) + NonBlank(ps)
  {
    assert ([p] + ps)[0] == p;
    assert ([p] + ps)[1..] == ps;
  }

  /** Dropping blank pieces keeps the order of the rest: a single piece is
      kept exactly when it is not blank, and two runs of pieces give what
      each gives, in turn. */
  lemma NonBlankOrder(a: seq<string>, b: seq<string>)
    ensures forall p :: NonBlank([p]) == if Strings.IsBlank(p) then [] else [p]
    ensures NonBlank(a + b) == NonBlank(a) + NonBlank(b)
  {
    forall p ensures NonBlank([p]) == if Strings.IsBlank(p) then [] else [p] {
      NonBlankCons(p, []);
      assert [p] + [] == [p];
    }
    NonBlankConcat(a, b);
  }

  lemma {:induction false} NonBlankConcat(a: seq<string>, b: seq<string>)
    ensures NonBlank(a + b) == NonBlank(a) + NonBlank(b)
    decreases |a|
  {
    if |a| == 0 {
      assert a + b == b;
    } else {
      var p, t := a[0], a[1..];
      var h := if Strings.IsBlank(p) then [] else [p];
      assert a == [p] + t;
      assert a + b == [p] + (t + b);
      calc {
        NonBlank(a + b);
        { NonBlankCons(p, t + b); }
        h + NonBlank(t + b);
        { NonBlankConcat(t, b); }
        h + (NonBlank(t) + NonBlank(b));
        (h + NonBlank(t)) + NonBlank(b);
        { NonBlankCons(p, t); }
        NonBlank(a) + NonBlank(b);
      }
    }
  }

  /** Pieces none of which is blank are all kept. */
  lemma {:induction false} NonBlankKeepsAll(ps: seq<string>)
    requires forall i :: 0 <= i < |ps| ==> !Strings.IsBlank(ps[i])
    ensures NonBlank(ps) == ps
    decreases |ps|
  {
    if |ps| > 0 {
      NonBlankKeepsAll(ps[1..]);
      NonBlankCons(ps[0], ps[1..]);
      assert ps == [ps[0]] + ps[1..];
    }
  }

  /** The breadcrumb segments of a pathname: the pieces between slashes
      that are not blank. */
  function Segments(pathname: string): (r: seq<string>)
    ensures forall s :: s in r <==> s in Strings.Split(pathname, '/') && !Strings.IsBlank(s)
    ensures forall s :: s in r ==> !Strings.IsBlank(s) && forall j :: 0 <= j < |s| ==> s[j] != '/'
    ensures |r| <= |Strings.Split(pathname, '/')|
  {
    Strings.SplitPiecesFree(pathname, '/');
    NonBlank(Strings.Split(pathname, '/'))
  }

  /** The pathname `/w1/w2/…` of non-blank, slash-free words has exactly
      those words as its segments, in order. */
  lemma SegmentsOfPath(words: seq<string>)
    requires |words| >= 1
    requires forall i :: 0 <= i < |words| ==> !Strings.IsBlank(words[i])
    requires forall i, j :: 0 <= i < |words| && 0 <= j < |words[i]| ==> words[i][j] != '/'
    ensures Segments("/" + Strings.Join(words, "/")) == words
  {
    var path := "/" + Strings.Join(words, "/");
    assert path[1..] == Strings.Join(words, "/");
    Strings.SplitLeading(path, '/');
    Strings.JoinSplit(words, '/');
    assert Strings.Split(path, '/') == [""] + words;
    NonBlankCons("", words);
    assert Strings.IsBlank("");
    NonBlankKeepsAll(words);
  }

  /** A crumb: its link, its text and whether a separator follows it. */
  datatype Crumb = Crumb(link: string, text: string, separator: bool)

  /** The crumbs for a pathname; `format` turns a segment into its text. Each
      links to its own segment alone. A separator follows the crumb whose
      position plus one equals the number of raw pieces. */
  function Crumbs(pathname: string, format: string -> string): (r: seq<Crumb>)
    ensures |r| == |Segments(pathname)|
    ensures forall i :: 0 <= i < |r| ==> r[i].link == "/" + Segments(pathname)[i] && r[i].text == format(Segments(pathname)[i])
    ensures forall i :: 0 <= i < |r| ==> (r[i].separator <==> |Strings.Split(pathname, '/')| == i + 1)
  {
    var segments := Segments(pathname);
    var raw := |Strings.Split(pathname, '/')|;
    seq(|segments|, i requires 0 <= i < |segments| =>
      Crumb("/" + segments[i], format(segments[i]), raw == i + 1))
  }

  /** A pathname starting with "/" splits into a leading empty piece, so
      there are more raw pieces than crumbs and no separator is shown. */
  lemma NoSeparatorForRootedPath(pathname: string, format: string -> string)
    requires |pathname| > 0 && pathname[0] == '/'
    ensures |Segments(pathname)| < |Strings.Split(pathname, '/')|
    ensures forall c :: c in Crumbs(pathname, format) ==> !c.separator
  {
    var rest := Strings.Split(pathname[1..], '/');
    Strings.SplitLeading(pathname, '/');
    assert Strings.IsBlank("");
    assert NonBlank(Strings.Split(pathname, '/')) == NonBlank(rest) by {
      assert ([""] + rest)[1..] == rest;
    }
  }
}
