/** scripts/convert.py: splits a cubemap laid out as a 4 x 3 cross into six
    square face images, named after the input with a face suffix. Image
    decoding, cropping and saving are file I/O and are not part of this
    model; an image is known by its width and height. */
module Convert {

  /** A Python value or the IndexError that stopped the computation. */
  datatype Result<T> = Ok(value: T) | IndexError

  // ---------------------------------------------------------------------
  // str.split and addToFilename
  // ---------------------------------------------------------------------

  /** `s.split(sep)`: the pieces between the separators, at least one. */
  function Split(s: string, sep: char): (parts: seq<string>)
    ensures |parts| >= 1
    ensures forall i, k :: 0 <= i < |parts| && 0 <= k < |parts[i]| ==> parts[i][k] != sep
    decreases |s|
  {
    if s == [] then [[]]
    else
      var rest := Split(s[1..], sep);
      if s[0] == sep then [[]] + rest
      else [[s[0]] + rest[0]] + rest[1..]
  }

  /** `sep.join(parts)`. */
  function Join(parts: seq<string>, sep: char): string
    requires |parts| >= 1
    decreases |parts|
  {
    if |parts| == 1 then parts[0] else parts[0] + [sep] + Join(parts[1..], sep)
  }

  /** Splitting loses nothing: joining the pieces again gives the string
      back. */
  lemma {:induction false} JoinSplit(s: string, sep: char)
    ensures Join(Split(s, sep), sep) == s
    decreases |s|
  {
    if s != [] {
      JoinSplit(s[1..], sep);
      var rest := Split(s[1..], sep);
      if s[0] != sep {
        var parts := Split(s, sep);
        assert parts[1..] == rest[1..];
        if |rest| == 1 {
          assert Join(parts, sep) == [s[0]] + rest[0];
        } else {
          assert Join(parts, sep) == [s[0]] + rest[0] + [sep] + Join(rest[1..], sep);
          assert Join(rest, sep) == rest[0] + [sep] + Join(rest[1..], sep);
        }
        assert s == [s[0]] + s[1..];
      } else {
        assert Split(s, sep)[1..] == rest;
      }
    }
  }

  /** A string without the separator is one piece. */
  lemma {:induction false} SplitNoSeparator(s: string, sep: char)
    requires forall k :: 0 <= k < |s| ==> s[k] != sep
    ensures Split(s, sep) == [s]
    decreases |s|
  {
    if s != [] {
      SplitNoSeparator(s[1..], sep);
      assert [s[0]] + s[1..] == s;
    }
  }

  /** The first separator ends the first piece. */
  lemma {:induction false} SplitAtFirst(a: string, b: string, sep: char)
    requires forall k :: 0 <= k < |a| ==> a[k] != sep
    ensures Split(a + [sep] + b, sep) == [a] + Split(b, sep)
    decreases |a|
  {
    var s := a + [sep] + b;
    if a == [] {
      assert s[1..] == b;
    } else {
      assert s[1..] == a[1..] + [sep] + b;
      SplitAtFirst(a[1..], b, sep);
      assert [a[0]] + a[1..] == a;
    }
  }

  /** A string with no separator splits into one piece, so it has no second
      piece to index. */
  lemma SplitCountsSeparators(s: string, sep: char)
    ensures |Split(s, sep)| == 1 <==> forall k :: 0 <= k < |s| ==> s[k] != sep
  {
    if forall k :: 0 <= k < |s| ==> s[k] != sep {
      SplitNoSeparator(s, sep);
    } else {
      var k :| 0 <= k < |s| && s[k] == sep;
      var j := FirstIndex(s, sep, k);
      assert s == s[..j] + [sep] + s[j + 1..];
      SplitAtFirst(s[..j], s[j + 1..], sep);
    }
  }

  /** The first occurrence of `c`, given that there is one at or before `k`. */
  function FirstIndex(s: string, c: char, k: int): (j: int)
    requires 0 <= k < |s| && s[k] == c
    ensures 0 <= j <= k && s[j] == c
    ensures forall m :: 0 <= m < j ==> s[m] != c
    decreases k
  {
    if exists m :: 0 <= m < k && s[m] == c then
      var m :| 0 <= m < k && s[m] == c;
      FirstIndex(s, c, m)
    else k
  }

  /** addToFilename(name, add): the first piece of the name, the suffix, a
      dot and the second piece; an IndexError when the name has no dot. */
  function AddToFilename(name: string, add: string): (r: Result<string>)
    ensures r.IndexError? <==> forall k :: 0 <= k < |name| ==> name[k] != '.'
  {
    SplitCountsSeparators(name, '.');
    var pieces := Split(name, '.');
    if |pieces| < 2 then IndexError else Ok(pieces[0] + add + "." + pieces[1])
  }

  /** A name with one dot gets the suffix before the dot: "sky.png" becomes
      "sky_left.png". */
  lemma AddToFilenameOneDot(stem: string, ext: string, add: string)
    requires forall k :: 0 <= k < |stem| ==> stem[k] != '.'
    requires forall k :: 0 <= k < |ext| ==> ext[k] != '.'
    ensures AddToFilename(stem + "." + ext, add) == Ok(stem + add + "." + ext)
  {
    SplitAtFirst(stem, ext, '.');
    SplitNoSeparator(ext, '.');
  }

  /** Everything after a second dot is dropped: "a.b.png" becomes
      "a_left.b". */
  lemma AddToFilenameDropsRest(a: string, b: string, rest: string, add: string)
    requires forall k :: 0 <= k < |a| ==> a[k] != '.'
    requires forall k :: 0 <= k < |b| ==> b[k] != '.'
    ensures AddToFilename(a + "." + b + "." + rest, add) == Ok(a + add + "." + b)
  {
    SplitAtFirst(a, b + "." + rest, '.');
    assert a + "." + b + "." + rest == a + ['.'] + (b + "." + rest);
    SplitAtFirst(b, rest, '.');
    assert b + "." + rest == b + ['.'] + rest;
  }

  // ---------------------------------------------------------------------
  // The crop rectangles
  // ---------------------------------------------------------------------

  /** A PIL crop box (left, upper, right, lower). */
  datatype CropBox = CropBox(left: real, upper: real, right: real, lower: real)

  /** splitAndSave's box: a square of side `size` at (startX, startY). */
  function SquareAt(startX: real, startY: real, size: real): (b: CropBox)
    ensures b.right - b.left == size && b.lower - b.upper == size
    ensures b.left == startX && b.upper == startY
  {
    CropBox(startX, startY, startX + size, startY + size)
  }

  datatype Face = Left | Front | Right | Back | Down | Up

  /** The face suffixes of the output names. */
  function Suffix(f: Face): string
  {
    match f
    case Left => "_left"
    case Front => "_front"
    case Right => "_right"
    case Back => "_back"
    case Down => "_down"
    case Up => "_up"
  }

  /** The order processImage saves the faces in. */
  const FaceOrder: seq<Face> := [Left, Front, Right, Back, Down, Up]

  /** The tile width, `img.size[0] / 4`, and height, `img.size[1] / 3`, with
      Python 3's true division. */
  function TileWidth(imageWidth: int): (w: real)
    ensures 4.0 * w == imageWidth as real
  {
    imageWidth as real / 4.0
  }

  function TileHeight(imageHeight: int): (h: real)
    ensures 3.0 * h == imageHeight as real
  {
    imageHeight as real / 3.0
  }

  /** The box processImage crops for a face: a square of side w at column 0,
      1, 2 or 3 of the middle row, or above and below column 1. */
  function FaceBox(f: Face, w: real, h: real): CropBox
  {
    match f
    case Left => SquareAt(0.0, h, w)
    case Front => SquareAt(w, h, w)
    case Right => SquareAt(w * 2.0, h, w)
    case Back => SquareAt(w * 3.0, h, w)
    case Down => SquareAt(w, h * 2.0, w)
    case Up => SquareAt(w, 0.0, w)
  }

  predicate Inside(b: CropBox, width: real, height: real)
  {
    0.0 <= b.left && b.right <= width && 0.0 <= b.upper && b.lower <= height
  }

  /** Two boxes share no interior point. */
  predicate Apart(a: CropBox, b: CropBox)
  {
    a.right <= b.left || b.right <= a.left || a.lower <= b.upper || b.lower <= a.upper
  }

  /** When the tiles are square, which is the layout of a 4 x 3 cross, the
      six boxes lie inside the image and do not overlap. */
  lemma SquareTilesFit(imageWidth: nat, imageHeight: nat)
    requires TileWidth(imageWidth) == TileHeight(imageHeight)
    ensures var w, h := TileWidth(imageWidth), TileHeight(imageHeight);
            && (forall f :: Inside(FaceBox(f, w, h), imageWidth as real, imageHeight as real))
            && (forall f, g :: f != g ==> Apart(FaceBox(f, w, h), FaceBox(g, w, h)))
  {
  }

  /** Every box is w x w, also for tiles that are not square: a tile taller
      than it is wide is cut short, and one wider than it is tall pushes the
      bottom face past the image's lower edge. */
  lemma NonSquareTiles(imageWidth: nat, imageHeight: nat)
    ensures var w, h := TileWidth(imageWidth), TileHeight(imageHeight);
            && (forall f :: FaceBox(f, w, h).lower - FaceBox(f, w, h).upper == w)
            && (w > h ==> !Inside(FaceBox(Down, w, h), imageWidth as real, imageHeight as real))
  {
  }

  // ---------------------------------------------------------------------
  // processImage and the argument loop
  // ---------------------------------------------------------------------

  /** One saveImage call: the box cropped and the file it goes to. */
  datatype Save = Save(box: CropBox, fileName: string)

  /** The six saves processImage performs for `name`, an image of the given
      size, in face order; the IndexError of a name without a dot. */
  function ProcessImage(name: string, imageWidth: int, imageHeight: int): (r: Result<seq<Save>>)
    ensures r.IndexError? <==> forall k :: 0 <= k < |name| ==> name[k] != '.'
    ensures r.Ok? ==> |r.value| == |FaceOrder|
    ensures r.Ok? ==>
              forall i :: 0 <= i < |FaceOrder| ==>
                && r.value[i].box == FaceBox(FaceOrder[i], TileWidth(imageWidth), TileHeight(imageHeight))
                && Ok(r.value[i].fileName) == AddToFilename(name, Suffix(FaceOrder[i]))
  {
    var w, h := TileWidth(imageWidth), TileHeight(imageHeight);
    match AddToFilename(name, "_left")
    case IndexError => IndexError
    case Ok(_) =>
      Ok(seq(|FaceOrder|, i requires 0 <= i < |FaceOrder| =>
        Save(FaceBox(FaceOrder[i], w, h), AddToFilename(name, Suffix(FaceOrder[i])).value)))
  }

  /** `sub in s` for strings. */
  predicate Contains(s: string, sub: string)
    decreases |s|
  {
    |sub| <= |s| && (s[..|sub|] == sub || Contains(s[1..], sub))
  }

  /** A string containing a substring contains each of its characters. */
  lemma {:induction false} ContainsHasChar(s: string, sub: string, k: int)
    requires Contains(s, sub) && 0 <= k < |sub|
    ensures exists m :: 0 <= m < |s| && s[m] == sub[k]
    decreases |s|
  {
    if s[..|sub|] == sub {
      assert s[k] == sub[k];
    } else {
      ContainsHasChar(s[1..], sub, k);
      var m :| 0 <= m < |s[1..]| && s[1..][m] == sub[k];
      assert s[m + 1] == sub[k];
    }
  }

  /** The test of the argument loop. */
  predicate IsImageArg(arg: string)
  {
    Contains(arg, ".png") || Contains(arg, ".jpg")
  }

  /** The arguments the loop processes, in order. */
  function ImageArgs(argv: seq<string>): (r: seq<string>)
    ensures forall i :: 0 <= i < |r| ==> IsImageArg(r[i]) && r[i] in argv
    ensures forall a :: a in argv && IsImageArg(a) ==> a in r
    decreases |argv|
  {
    if argv == [] then []
    else
      var rest := ImageArgs(argv[..|argv| - 1]);
      var last := argv[|argv| - 1];
      assert argv == argv[..|argv| - 1] + [last];
      if IsImageArg(last) then rest + [last] else rest
  }

  /** An argument the loop processes always has a dot, so processImage never
      raises IndexError for it. */
  lemma ImageArgHasDot(arg: string, imageWidth: int, imageHeight: int)
    requires IsImageArg(arg)
    ensures ProcessImage(arg, imageWidth, imageHeight).Ok?
  {
    if Contains(arg, ".png") {
      ContainsHasChar(arg, ".png", 0);
    } else {
      ContainsHasChar(arg, ".jpg", 0);
    }
  }

  /** The width and height of the image a path opens; PIL's file I/O is not
      part of this model. */
  type ImageSizes = string -> (int, int)

  /** The saves of one processed argument. */
  function SavesOf(arg: string, sizes: ImageSizes): seq<Save>
  {
    var (w, h) := sizes(arg);
    match ProcessImage(arg, w, h)
    case Ok(saves) => saves
    case IndexError => []
  }

  /** The saves of all processed arguments, in order. */
  function AllSaves(args: seq<string>, sizes: ImageSizes): seq<Save>
    decreases |args|
  {
    if args == [] then [] else AllSaves(args[..|args| - 1], sizes) + SavesOf(args[|args| - 1], sizes)
  }

  /** Every processed argument yields exactly six saves. */
  lemma {:induction false} AllSavesCount(argv: seq<string>, sizes: ImageSizes)
    ensures |AllSaves(ImageArgs(argv), sizes)| == 6 * |ImageArgs(argv)|
    decreases |argv|
  {
    if argv != [] {
      var prefix := argv[..|argv| - 1];
      AllSavesCount(prefix, sizes);
      var last := argv[|argv| - 1];
      if IsImageArg(last) {
        var (w, h) := sizes(last);
        ImageArgHasDot(last, w, h);
        assert ImageArgs(argv)[..|ImageArgs(argv)| - 1] == ImageArgs(prefix);
      }
    }
  }

  /** The script's top level: every argument that names a .png or .jpg is
      processed in order, and `processed` tells whether the usage message is
      skipped. */
  method RunScript(argv: seq<string>, sizes: ImageSizes) returns (saves: seq<Save>, processed: bool)
    ensures saves == AllSaves(ImageArgs(argv), sizes)
    ensures processed <==> ImageArgs(argv) != []
  {
    saves, processed := [], false;
    ghost var done: seq<string> := [];
    for i := 0 to |argv|
      invariant done == ImageArgs(argv[..i])
      invariant saves == AllSaves(done, sizes)
      invariant processed <==> done != []
    {
      var arg := argv[i];
      assert argv[..i + 1][..i] == argv[..i];
      if IsImageArg(arg) {
        assert (done + [arg])[..|done|] == done;
        saves := saves + SavesOf(arg, sizes);
        done := done + [arg];
        processed := true;
      }
    }
    assert argv[..|argv|] == argv;
  }

  /** The usage message is printed exactly when no argument names a .png or
      .jpg file. */
  lemma {:induction false} ImageArgsEmpty(argv: seq<string>)
    ensures ImageArgs(argv) == [] <==> forall i :: 0 <= i < |argv| ==> !IsImageArg(argv[i])
    decreases |argv|
  {
    if argv != [] {
      var prefix := argv[..|argv| - 1];
      ImageArgsEmpty(prefix);
      assert forall i :: 0 <= i < |prefix| ==> prefix[i] == argv[i];
    }
  }
}
