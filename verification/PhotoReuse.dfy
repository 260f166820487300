/** The cross-seller photograph index of src/searcher/authenticity/photo_reuse.py. */
module PhotoReuse {
  import opened Wrappers
  import opened Text

  // The keys an image may be known by, strongest first; "" stands for a key that is missing or falsy.
  datatype Image = Image(family: string, perceptualHash: string, digest: string)

  // Seller metadata keeps its text values only. Two sellers named in different ways never coincide.
  datatype Candidate = Candidate(id: string, meta: map<string, string>, source: string, images: seq<Image>)

  datatype Seller = Named(name: string) | OfSource(source: string) | UnknownSeller

  const SELLER_KEYS: seq<string> := ["seller_id", "seller", "shop", "shop_id", "username", "store"]

  function FirstName(meta: map<string, string>, keys: seq<string>, fold: string -> string): (seller: Option<Seller>) {
    if keys == [] then None
    else if keys[0] in meta && Strip(meta[keys[0]]) != "" then Some(Named(fold(Strip(meta[keys[0]]))))
    else FirstName(meta, keys[1..], fold)
  }

  // _seller_of; fold is Python's casefold.
  function SellerOf(c: Candidate, fold: string -> string): (seller: Seller) {
    match FirstName(c.meta, SELLER_KEYS, fold)
    case Some(seller) => seller
    case None => if c.source != "" then OfSource(c.source) else UnknownSeller
  }

  function KeyOf(image: Image): (key: string) {
    Strip(if image.family != "" then image.family
          else if image.perceptualHash != "" then image.perceptualHash
          else image.digest)
  }

  ghost function Families(c: Candidate): (families: set<string>) {
    set image | image in c.images && KeyOf(image) != "" :: KeyOf(image)
  }

  method CollectFamilies(c: Candidate) returns (families: set<string>)
    ensures families == Families(c)
  {
    families := {};
    for i := 0 to |c.images|
      invariant families == set image | image in c.images[..i] && KeyOf(image) != "" :: KeyOf(image)
    {
      assert c.images[..i + 1] == c.images[..i] + [c.images[i]];
      if KeyOf(c.images[i]) != "" {
        families := families + {KeyOf(c.images[i])};
      }
    }
    assert c.images[..|c.images|] == c.images;
  }

  // The sellers under whom an image family appears.
  ghost function SellersOf(rows: seq<Candidate>, family: string, fold: string -> string): (sellers: set<Seller>) {
    set c | c in rows && c.id != "" && family in Families(c) :: SellerOf(c, fold)
  }

  // The families filed under each id; a later row under the same id replaces an earlier one.
  ghost function FamiliesById(rows: seq<Candidate>): (families: map<string, set<string>>) {
    if rows == [] then map[]
    else
      var front := FamiliesById(rows[..|rows| - 1]);
      var c := rows[|rows| - 1];
      if c.id == "" then front else front[c.id := Families(c)]
  }

  ghost predicate SpansAtLeast(rows: seq<Candidate>, id: string, sellers: int, fold: string -> string) {
    id in FamiliesById(rows) && exists f :: f in FamiliesById(rows)[id] && |SellersOf(rows, f, fold)| >= sellers
  }

  // What the screen flags as stock, and what it flags as reused.
  ghost predicate IsStock(rows: seq<Candidate>, id: string, threshold: int, fold: string -> string) {
    SpansAtLeast(rows, id, threshold, fold)
  }

  ghost predicate IsReused(rows: seq<Candidate>, id: string, threshold: int, fold: string -> string) {
    SpansAtLeast(rows, id, 2, fold) || SpansAtLeast(rows, id, threshold, fold)
  }

  // ---------------------------------------------------------------- the screen

  ghost function At(index: map<string, set<Seller>>, f: string): (sellers: set<Seller>) {
    if f in index then index[f] else {}
  }

  method AddSeller(index: map<string, set<Seller>>, families: set<string>, seller: Seller)
    returns (wider: map<string, set<Seller>>)
    ensures wider.Keys == index.Keys + families
    ensures forall f :: At(wider, f) == At(index, f) + (if f in families then {seller} else {})
  {
    wider := index;
    var pending := families;
    while pending != {}
      invariant pending <= families && wider.Keys == index.Keys + (families - pending)
      invariant forall f :: At(wider, f) == At(index, f) + (if f in families - pending then {seller} else {})
    {
      var f :| f in pending;
      wider := wider[f := (if f in wider then wider[f] else {}) + {seller}];
      pending := pending - {f};
    }
  }

  lemma OneMoreRow(rows: seq<Candidate>, c: Candidate, fold: string -> string)
    ensures FamiliesById(rows + [c])
            == if c.id == "" then FamiliesById(rows) else FamiliesById(rows)[c.id := Families(c)]
    ensures forall f :: SellersOf(rows + [c], f, fold)
                        == SellersOf(rows, f, fold)
                          + (if c.id != "" && f in Families(c) then {SellerOf(c, fold)} else {})
  {
    assert (rows + [c])[..|rows|] == rows;
  }

  // Every family filed under an id has the sellers who showed it.
  ghost predicate Indexes(index: map<string, set<Seller>>, byId: map<string, set<string>>, rows: seq<Candidate>,
                          fold: string -> string) {
    && byId == FamiliesById(rows)
    && (forall f :: At(index, f) == SellersOf(rows, f, fold))
    && (forall id :: id in byId ==> byId[id] <= index.Keys)
  }

  method IndexRows(rows: seq<Candidate>, fold: string -> string)
    returns (index: map<string, set<Seller>>, byId: map<string, set<string>>)
    ensures Indexes(index, byId, rows, fold)
  {
    index, byId := map[], map[];
    for i := 0 to |rows|
      invariant Indexes(index, byId, rows[..i], fold)
    {
      var c := rows[i];
      assert rows[..i + 1] == rows[..i] + [c];
      OneMoreRow(rows[..i], c, fold);
      if c.id != "" {
        var families := CollectFamilies(c);
        byId := byId[c.id := families];
        index := AddSeller(index, families, SellerOf(c, fold));
      }
    }
    assert rows[..|rows|] == rows;
  }

  // The flags of one candidate: how many sellers its best-travelled family spans.
  method Flag(families: set<string>, index: map<string, set<Seller>>, threshold: int)
    returns (reused: bool, stock: bool)
    requires families <= index.Keys
    ensures stock <==> exists f :: f in families && |index[f]| >= threshold
    ensures reused <==> exists f :: f in families && (|index[f]| >= threshold || |index[f]| > 1)
  {
    reused, stock := false, false;
    var pending := families;
    while pending != {}
      invariant pending <= families
      invariant stock <==> exists f :: f in families - pending && |index[f]| >= threshold
      invariant reused <==> exists f :: f in families - pending && (|index[f]| >= threshold || |index[f]| > 1)
    {
      var f :| f in pending;
      if |index[f]| >= threshold {
        reused, stock := true, true;
      } else if |index[f]| > 1 {
        reused := true;
      }
      pending := pending - {f};
    }
  }

  /** screen_photo_reuse, for every list of candidates and every threshold. */
  method ScreenPhotoReuse(rows: seq<Candidate>, threshold: int, fold: string -> string)
    returns (reused: set<string>, stock: set<string>)
    ensures forall id :: id in stock <==> IsStock(rows, id, threshold, fold)
    ensures forall id :: id in reused <==> IsReused(rows, id, threshold, fold)
  {
    var index, byId := IndexRows(rows, fold);
    reused, stock := {}, {};
    var pending := byId.Keys;
    while pending != {}
      invariant pending <= byId.Keys
      invariant forall id :: id in stock <==> id in byId.Keys - pending && IsStock(rows, id, threshold, fold)
      invariant forall id :: id in reused <==> id in byId.Keys - pending && IsReused(rows, id, threshold, fold)
    {
      var id :| id in pending;
      var isReused, isStock := Flag(byId[id], index, threshold);
      FlagsAgree(index, byId, rows, threshold, fold, id);
      if isStock {
        stock := stock + {id};
      }
      if isReused {
        reused := reused + {id};
      }
      pending := pending - {id};
    }
  }

  lemma FlagsAgree(index: map<string, set<Seller>>, byId: map<string, set<string>>, rows: seq<Candidate>,
                   threshold: int, fold: string -> string, id: string)
    requires Indexes(index, byId, rows, fold) && id in byId
    ensures IsStock(rows, id, threshold, fold) <==> exists f :: f in byId[id] && |index[f]| >= threshold
    ensures IsReused(rows, id, threshold, fold)
            <==> exists f :: f in byId[id] && (|index[f]| >= threshold || |index[f]| > 1)
  {
    forall f | f in byId[id] ensures index[f] == SellersOf(rows, f, fold) {
      assert At(index, f) == index[f];
    }
  }

  // ---------------------------------------------------------------- the pairwise meaning

  ghost predicate LastOfItsId(rows: seq<Candidate>, i: nat)
    requires i < |rows|
  {
    rows[i].id != "" && forall j :: i < j < |rows| ==> rows[j].id != rows[i].id
  }

  ghost predicate DistinctIds(rows: seq<Candidate>) {
    forall i, j :: 0 <= i < j < |rows| && rows[i].id != "" ==> rows[i].id != rows[j].id
  }

  lemma {:induction false} FiledUnderItsId(rows: seq<Candidate>, i: nat)
    requires i < |rows| && LastOfItsId(rows, i)
    ensures rows[i].id in FamiliesById(rows) && FamiliesById(rows)[rows[i].id] == Families(rows[i])
    decreases |rows|
  {
    if i < |rows| - 1 {
      var front := rows[..|rows| - 1];
      assert LastOfItsId(front, i);
      FiledUnderItsId(front, i);
    }
  }

  lemma {:induction false} FiledIdsAreListed(rows: seq<Candidate>, id: string) returns (i: nat)
    requires id in FamiliesById(rows)
    ensures i < |rows| && rows[i].id == id && LastOfItsId(rows, i)
    decreases |rows|
  {
    var front := rows[..|rows| - 1];
    if rows[|rows| - 1].id == id && id != "" {
      i := |rows| - 1;
    } else {
      i := FiledIdsAreListed(front, id);
    }
  }

  lemma TwoSellers(sellers: set<Seller>, s: Seller) returns (other: Seller)
    requires s in sellers && |sellers| >= 2
    ensures other in sellers && other != s
  {
    assert |sellers - {s}| >= 1;
    other :| other in sellers - {s};
  }

  lemma Inside(small: set<Seller>, large: set<Seller>)
    requires small <= large
    ensures |small| <= |large|
  {
    assert |large - small| == |large| - |small|;
  }

  // b is someone else's listing showing one of a's images.
  ghost predicate AnotherSellerShows(a: Candidate, b: Candidate, fold: string -> string) {
    b.id != "" && SellerOf(b, fold) != SellerOf(a, fold) && exists f :: f in Families(a) && f in Families(b)
  }

  /** A listing is flagged as reused exactly when a listing of another seller shows one of its images,
      and as stock exactly when one of its images appears under the threshold of distinct sellers. Of
      rows under one id this speaks of the last; the earlier ones only lend their sellers. */
  lemma FlagsMeanOtherSellers(rows: seq<Candidate>, i: nat, threshold: int, fold: string -> string)
    requires i < |rows| && LastOfItsId(rows, i) && threshold > 1
    ensures IsReused(rows, rows[i].id, threshold, fold) <==>
              exists b :: b in rows && AnotherSellerShows(rows[i], b, fold)
    ensures IsStock(rows, rows[i].id, threshold, fold) <==>
              exists f :: f in Families(rows[i]) && |SellersOf(rows, f, fold)| >= threshold
    ensures IsStock(rows, rows[i].id, threshold, fold) ==> IsReused(rows, rows[i].id, threshold, fold)
  {
    FiledUnderItsId(rows, i);
    var a := rows[i];
    if IsReused(rows, a.id, threshold, fold) {
      var f :| f in Families(a) && |SellersOf(rows, f, fold)| >= 2;
      assert SellerOf(a, fold) in SellersOf(rows, f, fold);
      var other := TwoSellers(SellersOf(rows, f, fold), SellerOf(a, fold));
      var b :| b in rows && b.id != "" && f in Families(b) && SellerOf(b, fold) == other;
      assert AnotherSellerShows(a, b, fold);
    }
    if b :| b in rows && AnotherSellerShows(a, b, fold) {
      var f :| f in Families(a) && f in Families(b);
      Inside({SellerOf(a, fold), SellerOf(b, fold)}, SellersOf(rows, f, fold));
      assert SpansAtLeast(rows, a.id, 2, fold);
    }
  }

  // More candidates can only lengthen the list of sellers of an image.
  lemma SpansMore(rows: seq<Candidate>, more: seq<Candidate>, sellers: int, fold: string -> string, id: string)
    requires DistinctIds(more) && (forall c :: c in rows ==> c in more)
    requires SpansAtLeast(rows, id, sellers, fold)
    ensures SpansAtLeast(more, id, sellers, fold)
  {
    var i := FiledIdsAreListed(rows, id);
    FiledUnderItsId(rows, i);
    var f :| f in FamiliesById(rows)[id] && |SellersOf(rows, f, fold)| >= sellers;
    var j :| 0 <= j < |more| && more[j] == rows[i];
    FiledUnderItsId(more, j);
    Inside(SellersOf(rows, f, fold), SellersOf(more, f, fold));
  }

  /** Adding candidates never takes a flag away. */
  lemma MoreCandidatesFlagMore(rows: seq<Candidate>, more: seq<Candidate>, threshold: int, fold: string -> string,
                               id: string)
    requires DistinctIds(more) && (forall c :: c in rows ==> c in more)
    ensures IsStock(rows, id, threshold, fold) ==> IsStock(more, id, threshold, fold)
    ensures IsReused(rows, id, threshold, fold) ==> IsReused(more, id, threshold, fold)
  {
    if SpansAtLeast(rows, id, threshold, fold) {
      SpansMore(rows, more, threshold, fold, id);
    }
    if SpansAtLeast(rows, id, 2, fold) {
      SpansMore(rows, more, 2, fold, id);
    }
  }

  /** The order the candidates come in does not matter. */
  lemma OrderDoesNotMatter(rows: seq<Candidate>, other: seq<Candidate>, threshold: int, fold: string -> string,
                           id: string)
    requires DistinctIds(rows) && DistinctIds(other) && multiset(rows) == multiset(other)
    ensures IsStock(rows, id, threshold, fold) <==> IsStock(other, id, threshold, fold)
    ensures IsReused(rows, id, threshold, fold) <==> IsReused(other, id, threshold, fold)
  {
    forall c ensures c in rows <==> c in other {
      assert c in rows <==> c in multiset(rows);
      assert c in other <==> c in multiset(other);
    }
    MoreCandidatesFlagMore(rows, other, threshold, fold, id);
    MoreCandidatesFlagMore(other, rows, threshold, fold, id);
  }

  // ---------------------------------------------------------------- who and what a listing is known by

  /** An image is known by the strongest key it has, the blanks around it aside. */
  lemma KeyIsTheStrongest(image: Image) returns (i: nat)
    ensures var keys := [image.family, image.perceptualHash, image.digest];
            && i < 3 && KeyOf(image) == Strip(keys[i])
            && (forall j :: 0 <= j < i ==> keys[j] == "") && (keys[i] == "" ==> i == 2)
  {
    i := if image.family != "" then 0 else if image.perceptualHash != "" then 1 else 2;
  }

  predicate NamesSeller(c: Candidate, key: string) {
    key in c.meta && exists i :: 0 <= i < |c.meta[key]| && !IsSpace(c.meta[key][i])
  }

  lemma BlankIffStripped(s: string)
    ensures Strip(s) != "" <==> exists i :: 0 <= i < |s| && !IsSpace(s[i])
  {
    var before, after := StripsTheEnds(s);
    if Strip(s) != "" {
      assert !IsSpace(s[|before|]);
    }
  }

  lemma {:induction false} FirstNameIsFirst(meta: map<string, string>, keys: seq<string>, fold: string -> string,
                                            i: nat)
    requires i <= |keys| && forall j :: 0 <= j < i ==> !(keys[j] in meta && Strip(meta[keys[j]]) != "")
    requires i < |keys| ==> keys[i] in meta && Strip(meta[keys[i]]) != ""
    ensures FirstName(meta, keys, fold) == if i < |keys| then Some(Named(fold(Strip(meta[keys[i]])))) else None
  {
    if keys != [] && i > 0 {
      assert !(keys[0] in meta && Strip(meta[keys[0]]) != "");
      FirstNameIsFirst(meta, keys[1..], fold, i - 1);
    }
  }

  /** A seller is who the first of these names, a shop after a person and a store last; one nobody names is its
      source, if it has one. */
  lemma SellerIsTheFirstNamed(c: Candidate, fold: string -> string) returns (i: nat)
    ensures var names := ["seller_id", "seller", "shop", "shop_id", "username", "store"];
            && i <= 6 && (forall j :: 0 <= j < i ==> !NamesSeller(c, names[j])) && (i < 6 ==> NamesSeller(c, names[i]))
            && SellerOf(c, fold) == (if i < 6 then Named(fold(Strip(c.meta[names[i]])))
                                     else if c.source != "" then OfSource(c.source) else UnknownSeller)
  {
    hide Strip, FirstName, IsSpace;
    var names := SELLER_KEYS;
    i := 0;
    while i < 6 && !NamesSeller(c, names[i])
      invariant i <= 6 && forall j :: 0 <= j < i ==> !NamesSeller(c, names[j])
    {
      i := i + 1;
    }
    forall j | 0 <= j < 6 ensures NamesSeller(c, names[j]) <==> names[j] in c.meta && Strip(c.meta[names[j]]) != "" {
      if names[j] in c.meta {
        BlankIffStripped(c.meta[names[j]]);
      }
    }
    FirstNameIsFirst(c.meta, names, fold, i);
  }
}
