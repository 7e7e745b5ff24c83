/**
  Typed rows of the engine's listings: images (`docker images`) and containers
  (`docker ps`), the Repository/Tag filter of an images request, and the
  status listing of a set of container names.
 */
module DockerListing {

  /** One row of the image listing; Size is a byte count. */
  datatype ImageInfo = ImageInfo(repository: string, tag: string, imageId: string, size: nat)

  /** An empty Repository or Tag in the request matches every row. */
  predicate ImageMatches(image: ImageInfo, repository: string, tag: string) {
    && (repository == "" || image.repository == repository)
    && (tag == "" || image.tag == tag)
  }

  /** The rows an images request with this Repository and Tag reports, in listing order. */
  function FilterImages(images: seq<ImageInfo>, repository: string, tag: string): (r: seq<ImageInfo>)
    ensures forall x :: x in r <==> x in images && ImageMatches(x, repository, tag)
    ensures |r| <= |images|
  {
    if images == [] then []
    else
      var rest := FilterImages(images[1..], repository, tag);
      assert forall x :: x in images <==> x == images[0] || x in images[1..];
      if ImageMatches(images[0], repository, tag) then [images[0]] + rest else rest
  }

  /** An empty filter returns every row, in listing order. */
  lemma {:induction false} FilterImagesUnfiltered(images: seq<ImageInfo>)
    ensures FilterImages(images, "", "") == images
  {
    if images != [] {
      FilterImagesUnfiltered(images[1..]);
      assert images == [images[0]] + images[1..];
    }
  }

  /** Filtering keeps listing order: a filtered listing is the filtered parts, in order. */
  lemma {:induction false} FilterImagesConcat(a: seq<ImageInfo>, b: seq<ImageInfo>, repository: string, tag: string)
    ensures FilterImages(a + b, repository, tag) == FilterImages(a, repository, tag) + FilterImages(b, repository, tag)
  {
    if a == [] {
      assert a + b == b;
    } else {
      assert (a + b)[1..] == a[1..] + b;
      FilterImagesConcat(a[1..], b, repository, tag);
    }
  }

  /** Filtering twice with the same filter is filtering once. */
  lemma {:induction false} FilterImagesIdempotent(images: seq<ImageInfo>, repository: string, tag: string)
    ensures FilterImages(FilterImages(images, repository, tag), repository, tag) == FilterImages(images, repository, tag)
  {
    if images != [] {
      FilterImagesIdempotent(images[1..], repository, tag);
      var rest := FilterImages(images[1..], repository, tag);
      if ImageMatches(images[0], repository, tag) {
        assert ([images[0]] + rest)[1..] == rest;
      }
    }
  }

  /** A container is running (`up`) or not (`down`). */
  datatype Status = Up | Down

  function StatusText(s: Status): string {
    match s
    case Up => "up"
    case Down => "down"
  }

  /** One row of the container listing. */
  datatype ContainerInfo = ContainerInfo(
    containerId: string,
    image: string,
    command: string,
    status: Status,
    port: string,
    names: string)

  /** `row` is the row of one of `names` that exists in `table`. */
  predicate IsRowOf(table: map<string, ContainerInfo>, names: seq<string>, row: ContainerInfo) {
    exists k :: 0 <= k < |names| && names[k] in table && row == table[names[k]]
  }

  /**
    The containers among `names` that exist in `table`, in the order of `names`:
    every existing name contributes its row, and every row is the row of a
    listed, existing name.
   */
  function Listing(table: map<string, ContainerInfo>, names: seq<string>): (r: seq<ContainerInfo>)
    ensures |r| <= |names|
    ensures forall k :: 0 <= k < |names| && names[k] in table ==> table[names[k]] in r
    ensures forall i :: 0 <= i < |r| ==> IsRowOf(table, names, r[i])
  {
    if names == [] then []
    else
      var rest := Listing(table, names[1..]);
      assert forall k :: 1 <= k < |names| ==> names[k] == names[1..][k - 1];
      RowOfTail(table, names);
      if names[0] in table then
        var r := [table[names[0]]] + rest;
        assert forall i :: 1 <= i < |r| ==> r[i] == rest[i - 1];
        assert IsRowOf(table, names, r[0]) by { assert names[0] in table; }
        r
      else rest
  }

  /** A row of a name among `names[1..]` is a row of a name among `names`. */
  lemma RowOfTail(table: map<string, ContainerInfo>, names: seq<string>)
    requires |names| > 0
    ensures forall row :: IsRowOf(table, names[1..], row) ==> IsRowOf(table, names, row)
  {
    forall row | IsRowOf(table, names[1..], row) ensures IsRowOf(table, names, row) {
      var k :| 0 <= k < |names[1..]| && names[1..][k] in table && row == table[names[1..][k]];
      assert names[k + 1] == names[1..][k];
    }
  }

  /** Listing keeps the order of the names: the listing of two runs of names is the two listings. */
  lemma {:induction false} ListingConcat(table: map<string, ContainerInfo>, a: seq<string>, b: seq<string>)
    ensures Listing(table, a + b) == Listing(table, a) + Listing(table, b)
  {
    if a == [] {
      assert a + b == b;
    } else {
      assert (a + b)[1..] == a[1..] + b;
      ListingConcat(table, a[1..], b);
    }
  }

  /** Listing names none of which exists yields no containers. */
  lemma {:induction false} ListingOfAbsent(table: map<string, ContainerInfo>, names: seq<string>)
    requires forall i :: 0 <= i < |names| ==> names[i] !in table
    ensures Listing(table, names) == []
  {
    if names != [] {
      assert forall i :: 0 <= i < |names[1..]| ==> names[1..][i] == names[i + 1];
      ListingOfAbsent(table, names[1..]);
    }
  }
}
