/** One page of dataset images, taken across directories that are each scanned only up to a cap. */
module DatasetPages {
  import opened Values

  const LIST_COUNT_CAP := 10000
  const MAX_LIST_LIMIT := 48

  datatype Entry = Entry(name: string, isFile: bool, isImage: bool)

  /** A configured directory as the scan finds it. `Unreadable` is one whose scan raises, even half-way. */
  datatype Directory =
    | MissingPath
    | NotADirectory
    | Unreadable
    | Listing(entries: seq<Entry>)

  function Max(a: int, b: int): int { if a < b then b else a }

  function Min(a: int, b: int): int { if a < b then a else b }

  /** The image files among the entries, in scan order. */
  function Images(entries: seq<Entry>): seq<string> {
    if entries == [] then []
    else
      var front, last := Images(entries[..|entries| - 1]), entries[|entries| - 1];
      if last.isFile && last.isImage then front + [last.name] else front
  }

  function ImagesOf(dir: Directory): seq<string> {
    if dir.Listing? then Images(dir.entries) else []
  }

  /** `xs[offset : offset + limit]`. */
  function Slice<T>(xs: seq<T>, offset: nat, limit: nat): seq<T> {
    xs[Min(offset, |xs|)..Min(offset + limit, |xs|)]
  }

  // ---------------------------------------------------------------- one directory

  lemma {:induction false} ImagesPrefix(entries: seq<Entry>, k: nat)
    requires k <= |entries|
    ensures |Images(entries[..k])| <= |Images(entries)|
    ensures Images(entries)[..|Images(entries[..k])|] == Images(entries[..k])
  {
    if k == |entries| {
      assert entries[..k] == entries;
    } else {
      ImagesPrefix(entries[..|entries| - 1], k);
      assert entries[..|entries| - 1][..k] == entries[..k];
    }
  }

  lemma OneMoreEntry(entries: seq<Entry>, k: nat)
    requires k < |entries|
    ensures Images(entries[..k + 1])
         == Images(entries[..k]) + if entries[k].isFile && entries[k].isImage then [entries[k].name] else []
  {
    assert entries[..k + 1][..k] == entries[..k];
  }

  lemma SliceGrows(seen: seq<string>, name: string, offset: nat, limit: nat)
    ensures Slice(seen + [name], offset, limit)
         == Slice(seen, offset, limit) + if offset <= |seen| < offset + limit then [name] else []
  {
  }

  lemma SliceOfLonger<T>(xs: seq<T>, n: nat, offset: nat, limit: nat)
    requires offset + limit <= n <= |xs|
    ensures Slice(xs[..n], offset, limit) == Slice(xs, offset, limit)
  {
  }

  /**
   * `list_image_files_page` with its clamped arguments: one pass that stops at the cap still returns
   * exactly the page, because the cap is never below the end of the page.
   */
  method ListPage(dir: Directory, offset: nat, limit: nat, cap: int)
    returns (names: seq<string>, total: nat, capped: bool)
    requires limit >= 1
    ensures names == Slice(ImagesOf(dir), offset, limit)
    ensures total == Min(|ImagesOf(dir)|, Max(limit + offset, cap)) && (total > 0 ==> dir.Listing?)
    ensures capped <==> |ImagesOf(dir)| >= Max(limit + offset, cap)
  {
    names, total, capped := [], 0, false;
    if !dir.Listing? {
      return;
    }
    var bound := Max(limit + offset, cap);
    ghost var seen: seq<string> := [];
    for k := 0 to |dir.entries|
      invariant seen == Images(dir.entries[..k])
      invariant total == |seen| && total < bound && !capped
      invariant names == Slice(seen, offset, limit)
    {
      OneMoreEntry(dir.entries, k);
      ImagesPrefix(dir.entries, k + 1);
      var entry := dir.entries[k];
      if entry.isFile && entry.isImage {
        SliceGrows(seen, entry.name, offset, limit);
        seen := seen + [entry.name];
        if total < offset {
          total := total + 1;
        } else {
          if |names| < limit {
            names := names + [entry.name];
          }
          total := total + 1;
        }
        if total >= bound {
          SliceOfLonger(Images(dir.entries), |seen|, offset, limit);
          return names, total, true;
        }
      }
    }
    assert dir.entries[..|dir.entries|] == dir.entries;
  }

  // ---------------------------------------------------------------- all directories

  datatype Found = Found(directory: nat, name: string)

  function Tagged(index: nat, names: seq<string>): seq<Found> {
    seq(|names|, i requires 0 <= i < |names| => Found(index, names[i]))
  }

  /** The images of directories `from .. to`, one directory after another. */
  function AllImages(dirs: seq<Directory>, from: nat, to: nat): seq<Found>
    requires from <= to <= |dirs|
  {
    if from == to then [] else AllImages(dirs, from, to - 1) + Tagged(to - 1, ImagesOf(dirs[to - 1]))
  }

  lemma TaggedSlice(index: nat, names: seq<string>, offset: nat, limit: nat)
    ensures Tagged(index, Slice(names, offset, limit)) == Slice(Tagged(index, names), offset, limit)
  {
  }

  lemma {:induction false} AllImagesPrefix(dirs: seq<Directory>, from: nat, k: nat, to: nat)
    requires from <= k <= to <= |dirs|
    ensures |AllImages(dirs, from, k)| <= |AllImages(dirs, from, to)|
    ensures AllImages(dirs, from, to)[..|AllImages(dirs, from, k)|] == AllImages(dirs, from, k)
  {
    if k < to {
      AllImagesPrefix(dirs, from, k, to - 1);
    }
  }

  /** The next directory's part of the page is its own page at what is left of offset and limit. */
  lemma PageContinues(before: seq<Found>, here: seq<Found>, offset: nat, limit: nat)
    requires |Slice(before, offset, limit)| < limit
    ensures Slice(before + here, offset, limit)
         == Slice(before, offset, limit)
            + Slice(here, Max(0, offset - |before|), limit - |Slice(before, offset, limit)|)
  {
  }

  /** A full page does not grow. */
  lemma FullPage(xs: seq<Found>, n: nat, offset: nat, limit: nat)
    requires n <= |xs| && |Slice(xs[..n], offset, limit)| >= limit >= 1
    ensures Slice(xs, offset, limit) == Slice(xs[..n], offset, limit)
  {
    assert offset + limit <= n;
    SliceOfLonger(xs, n, offset, limit);
  }

  /** One directory further: the page so far, and what is left of offset and limit. */
  lemma OneDirectory(dirs: seq<Directory>, k: nat, start: nat, size: nat, names: seq<string>, total: nat, capped: bool)
    requires k < |dirs|
    requires var before := AllImages(dirs, 0, k);
             var images := Slice(before, start, size);
             var offset, limit := Max(0, start - |before|), size - |images|;
             && |images| < size
             && names == Slice(ImagesOf(dirs[k]), offset, limit)
             && total == Min(|ImagesOf(dirs[k])|, Max(limit + offset, LIST_COUNT_CAP))
             && (capped <==> |ImagesOf(dirs[k])| >= Max(limit + offset, LIST_COUNT_CAP))
    ensures var before, after := AllImages(dirs, 0, k), AllImages(dirs, 0, k + 1);
            var images := Slice(before, start, size) + Tagged(k, names);
            && images == Slice(after, start, size) && |images| <= size
            && (|images| < size || !capped ==> |after| == |before| + total && !capped)
  {
    hide ImagesOf, Tagged;
    PageContinues(AllImages(dirs, 0, k), Tagged(k, ImagesOf(dirs[k])), start, size);
    TaggedSlice(
      k, ImagesOf(dirs[k]), Max(0, start - |AllImages(dirs, 0, k)|),
      size - |Slice(AllImages(dirs, 0, k), start, size)|);
    TaggedLength(k, ImagesOf(dirs[k]));
    TaggedLength(k, names);
  }

  lemma TaggedLength(index: nat, names: seq<string>)
    ensures |Tagged(index, names)| == |names|
  {
  }

  datatype DirectoryInfo = DirectoryInfo(index: nat, ok: bool, count: nat, capped: bool)

  function CountListed(infos: seq<DirectoryInfo>): nat {
    if infos == [] then 0
    else CountListed(infos[..|infos| - 1]) + if infos[|infos| - 1].ok then infos[|infos| - 1].count else 0
  }

  datatype Preview =
    | OutOfRange
    | Page(images: seq<Found>, total: nat, capped: bool, infos: seq<DirectoryInfo>)

  function PageLimit(limit: int): nat { Max(1, Min(limit, MAX_LIST_LIMIT)) }

  function InfoOf(index: nat, dir: Directory, total: nat, capped: bool): DirectoryInfo {
    if dir.MissingPath? || dir.NotADirectory? then DirectoryInfo(index, false, 0, false)
    else DirectoryInfo(index, true, total, capped)
  }

  /** What a listing says of a directory: whether it is one, and how many images were counted in it. */
  ghost predicate Describes(info: DirectoryInfo, k: nat, dir: Directory) {
    && info.index == k
    && (info.ok <==> dir.Unreadable? || dir.Listing?)
    && (if info.capped then LIST_COUNT_CAP <= info.count <= |ImagesOf(dir)| else info.count == |ImagesOf(dir)|)
  }

  lemma InfoDescribes(k: nat, dir: Directory, total: nat, capped: bool, bound: int)
    requires bound >= LIST_COUNT_CAP && total == Min(|ImagesOf(dir)|, bound) && (capped <==> |ImagesOf(dir)| >= bound)
    ensures Describes(InfoOf(k, dir, total, capped), k, dir) && InfoOf(k, dir, total, capped).capped == capped
  {
  }

  /** The page across all directories; it ends as soon as the page is full. */
  method ListAcross(dirs: seq<Directory>, start: nat, size: nat)
    returns (images: seq<Found>, total: nat, anyCapped: bool, infos: seq<DirectoryInfo>)
    requires size >= 1
    ensures images == Slice(AllImages(dirs, 0, |dirs|), start, size)
    ensures |infos| <= |dirs|
    ensures images == [] ==> total == 0
    ensures images != [] && !anyCapped ==> total == |AllImages(dirs, 0, |infos|)|
    ensures forall k | 0 <= k < |infos| :: Describes(infos[k], k, dirs[k])
    ensures anyCapped <==> exists k :: 0 <= k < |infos| && infos[k].capped
    ensures |infos| < |dirs| ==> |images| == size
  {
    hide Slice, ImagesOf, Tagged, AllImages, CountListed, Describes, InfoOf;
    StartOfList(dirs, start, size);
    images, infos, anyCapped := [], [], false;
    var leftOffset, leftLimit := start, size;
    for k := 0 to |dirs|
      invariant |infos| == k && |images| < size && leftLimit == size - |images| && !anyCapped
      invariant images == Slice(AllImages(dirs, 0, k), start, size)
      invariant leftOffset == Max(0, start - |AllImages(dirs, 0, k)|)
      invariant CountListed(infos) == |AllImages(dirs, 0, k)|
      invariant forall i | 0 <= i < |infos| :: Describes(infos[i], i, dirs[i]) && !infos[i].capped
    {
      var names, seen, capped := ListPage(dirs[k], leftOffset, leftLimit, LIST_COUNT_CAP);
      OneDirectory(dirs, k, start, size, names, seen, capped);
      OneMoreInfo(infos, k, dirs[k], seen, capped);
      InfoDescribes(k, dirs[k], seen, capped, Max(leftLimit + leftOffset, LIST_COUNT_CAP));
      images := images + Tagged(k, names);
      infos := infos + [InfoOf(k, dirs[k], seen, capped)];
      if capped {
        anyCapped := true;
      }
      leftOffset := Max(0, leftOffset - seen);
      leftLimit := size - |images|;
      if |images| >= size {
        PageIsFull(dirs, k + 1, start, size);
        total := CountListed(infos);
        return;
      }
    }
    total := if images == [] then 0 else CountListed(infos);
  }

  lemma PageIsFull(dirs: seq<Directory>, k: nat, start: nat, size: nat)
    requires k <= |dirs| && |Slice(AllImages(dirs, 0, k), start, size)| >= size >= 1
    ensures Slice(AllImages(dirs, 0, |dirs|), start, size) == Slice(AllImages(dirs, 0, k), start, size)
  {
    hide Slice, AllImages;
    AllImagesPrefix(dirs, 0, k, |dirs|);
    FullPage(AllImages(dirs, 0, |dirs|), |AllImages(dirs, 0, k)|, start, size);
  }

  /**
   * `list_dataset_preview_images` after parsing: the page is the slice of all readable directories'
   * images laid end to end, or of the one directory asked for.
   */
  method ListPreview(dirs: seq<Directory>, only: Option<int>, limit: int, offset: int) returns (r: Preview)
    ensures r.OutOfRange? <==> dirs != [] && only.Some? && !(0 <= only.value < |dirs|)
    ensures var size: nat := if limit < 1 then 1 else if limit > 48 then 48 else limit;
            && (r.Page? && dirs != [] && only.Some? ==>
                  && r.images == Slice(Tagged(only.value, ImagesOf(dirs[only.value])), Max(0, offset), size)
                  && |r.infos| == 1 && Describes(r.infos[0], only.value, dirs[only.value])
                  && r.capped == r.infos[0].capped && r.total == r.infos[0].count)
            && (r.Page? && only.None? ==>
                  && r.images == Slice(AllImages(dirs, 0, |dirs|), Max(0, offset), size)
                  && (forall k | 0 <= k < |r.infos| :: k < |dirs| && Describes(r.infos[k], k, dirs[k]))
                  && (r.capped <==> exists k :: 0 <= k < |r.infos| && r.infos[k].capped))
    ensures r.Page? && only.None? ==>
              && |r.infos| <= |dirs|
              && (r.images == [] ==> r.total == 0)
              && (r.images != [] && !r.capped ==> r.total == |AllImages(dirs, 0, |r.infos|)|)
  {
    var size, start := PageLimit(limit), Max(0, offset);
    if dirs == [] {
      return Page([], 0, false, []);
    }
    if only.Some? {
      if !(0 <= only.value < |dirs|) {
        return OutOfRange;
      }
      var dir := dirs[only.value];
      var names, total, capped := ListPage(dir, start, size, LIST_COUNT_CAP);
      TaggedSlice(only.value, ImagesOf(dir), start, size);
      InfoDescribes(only.value, dir, total, capped, Max(size + start, LIST_COUNT_CAP));
      return Page(Tagged(only.value, names), total, capped, [InfoOf(only.value, dir, total, capped)]);
    }
    var images, total, capped, infos := ListAcross(dirs, start, size);
    return Page(images, total, capped, infos);
  }

  lemma StartOfList(dirs: seq<Directory>, start: nat, size: nat)
    ensures AllImages(dirs, 0, 0) == [] && Slice<Found>([], start, size) == [] && CountListed([]) == 0
  {
  }

  lemma OneMoreInfo(infos: seq<DirectoryInfo>, k: nat, dir: Directory, total: nat, capped: bool)
    requires total > 0 ==> dir.Listing?
    ensures CountListed(infos + [InfoOf(k, dir, total, capped)]) == CountListed(infos) + total
  {
  }
}
