/**
 * The image gallery: the images of `data/raw` listed in name order, and the path of the one
 * clicked. Reading the directory, opening and scaling the image are foreign; the listing is
 * an input.
 */
module Gallery {
  import opened Text
  import opened Sorting

  const ImageFolder: string := "data/raw"

  /** Python's `<=` on strings: code point by code point, a prefix first. */
  predicate StrLe(a: string, b: string)
    decreases |a|
  {
    a == [] || (b != [] && (a[0] < b[0] || (a[0] == b[0] && StrLe(a[1..], b[1..]))))
  }

  lemma {:induction false} StrLeTotal(a: string, b: string)
    decreases |a|
    ensures StrLe(a, b) || StrLe(b, a)
  {
    if a != [] && b != [] && a[0] == b[0] {
      StrLeTotal(a[1..], b[1..]);
    }
  }

  lemma {:induction false} StrLeTransitive(a: string, b: string, c: string)
    decreases |a|
    requires StrLe(a, b) && StrLe(b, c)
    ensures StrLe(a, c)
  {
    if a != [] && b != [] && c != [] && a[0] == b[0] == c[0] {
      StrLeTransitive(a[1..], b[1..], c[1..]);
    }
  }

  /** The string order is one a sort can use. */
  lemma StrLeTotalPreorder()
    ensures TotalPreorder(StrLe)
  {
    forall a, b ensures StrLe(a, b) || StrLe(b, a) {
      StrLeTotal(a, b);
    }
    forall a, b, c | StrLe(a, b) && StrLe(b, c) ensures StrLe(a, c) {
      StrLeTransitive(a, b, c);
    }
  }

  /** A file the gallery shows: its lower-cased name ends with `.png`, `.jpg` or `.jpeg`. */
  predicate IsImage(name: string) {
    var l := Lower(name);
    EndsWith(l, ".png") || EndsWith(l, ".jpg") || EndsWith(l, ".jpeg")
  }

  /** `s` is `t` with some elements left out, the rest in their order. */
  predicate IsSubsequence(s: seq<string>, t: seq<string>) {
    s == [] || (t != [] && (if s[0] == t[0] then IsSubsequence(s[1..], t[1..]) else IsSubsequence(s, t[1..])))
  }

  /** The comprehension keeping the image files. */
  function KeepImages(files: seq<string>): (r: seq<string>)
    ensures IsSubsequence(r, files)
    ensures forall i :: 0 <= i < |r| ==> IsImage(r[i])
    ensures forall f :: f in files && IsImage(f) ==> f in r
    ensures forall f :: f in r ==> f in files
  {
    if files == [] then []
    else if IsImage(files[0]) then [files[0]] + KeepImages(files[1..])
    else KeepImages(files[1..])
  }

  /** `load_images`: the names listed, sorted, then filtered. */
  function ImageFiles(listing: seq<string>): (r: seq<string>)
  {
    KeepImages(SortBy(listing, StrLe))
  }

  /** An order-preserving subsequence of a sorted sequence is sorted. */
  lemma {:induction false} SubsequenceSorted(s: seq<string>, t: seq<string>)
    requires IsSubsequence(s, t) && SortedBy(t, StrLe)
    ensures SortedBy(s, StrLe)
  {
    if s != [] && t != [] {
      if s[0] == t[0] {
        SubsequenceSorted(s[1..], t[1..]);
        SubsequenceIn(s[1..], t[1..]);
        forall j | 0 < j < |s| ensures StrLe(s[0], s[j]) {
          assert s[j] == s[1..][j - 1] && s[1..][j - 1] in s[1..];
          var k :| 0 <= k < |t[1..]| && t[1..][k] == s[j];
          assert t[k + 1] == s[j];
        }
      } else {
        SubsequenceSorted(s, t[1..]);
      }
    }
  }

  lemma {:induction false} SubsequenceIn(s: seq<string>, t: seq<string>)
    requires IsSubsequence(s, t)
    ensures forall x :: x in s ==> x in t
  {
    if s != [] && t != [] {
      assert s == [s[0]] + s[1..] && t == [t[0]] + t[1..];
      if s[0] == t[0] {
        SubsequenceIn(s[1..], t[1..]);
      } else {
        SubsequenceIn(s, t[1..]);
      }
    }
  }

  /** The gallery lists exactly the image files of the folder, as an ordered part of the
      sorted listing, in name order. */
  lemma ImageFilesListed(listing: seq<string>)
    ensures var r := ImageFiles(listing);
            && SortedBy(r, StrLe)
            && IsSubsequence(r, SortBy(listing, StrLe))
            && (forall f :: f in r <==> f in listing && IsImage(f))
  {
    StrLeTotalPreorder();
    SortBySorted(listing, StrLe);
    var sorted := SortBy(listing, StrLe);
    SubsequenceSorted(KeepImages(sorted), sorted);
    forall f ensures f in sorted <==> f in listing {
      assert f in multiset(sorted) <==> f in multiset(listing);
    }
  }

  /** `os.path.join(folder, name)`: an absolute name replaces the folder; otherwise a
      separator is added unless the folder already ends with one. */
  function JoinPath(folder: string, name: string): (path: string)
    ensures name != [] && name[0] == '/' ==> path == name
    ensures EndsWith(path, name)
  {
    if name != [] && name[0] == '/' then name
    else if folder == [] || folder[|folder| - 1] == '/' then folder + name
    else folder + "/" + name
  }

  /** `show_image`: the path of the clicked entry. */
  function ImagePath(item: string): (path: string)
  {
    JoinPath(ImageFolder, item)
  }

  /** A listed name (one without a separator) is looked up inside the image folder. */
  lemma ImagePathInFolder(item: string)
    requires item == [] || item[0] != '/'
    ensures ImagePath(item) == ImageFolder + "/" + item
  {
  }
}
