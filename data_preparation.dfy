/** `DataPreparationModule`: loads the recipe markdown files as parent
    documents and classifies each one from its path and its content —
    category from a path component, dish name from the file stem, and
    difficulty from the longest run of '★' in the text. */
module DataPreparation {
  import opened Common
  import opened PosixPath

  // ---------------------------------------------------------------------
  // Class constants and metadata keys (lines 13-25)

  /** The category table, in declaration order: path component, label. */
  const CategoryMapping: seq<(string, string)> := [
    ("meat_dish", "荤菜"),
    ("vegetable_dish", "素菜"),
    ("soup", "汤品"),
    ("dessert", "甜品"),
    ("breakfast", "早餐"),
    ("staple", "主食"),
    ("aquatic", "水产"),
    ("condiment", "调料"),
    ("drink", "饮品")
  ]

  /** The distinct category labels (`list(set(...))`, whose order Python
      leaves unspecified, so a set here). */
  const CategoryLabels: set<string> := set i | 0 <= i < |CategoryMapping| :: CategoryMapping[i].1

  /** Difficulty labels, from one star to five. */
  const DifficultyLabels: seq<string> := ["非常简单", "简单", "中等", "困难", "非常困难"]

  const OtherCategory: string := "其他"
  const UnknownDifficulty: string := "未知"
  const Star: char := '★'
  const ParentDocType: string := "parent"

  const SourceKey: string := "source"
  const ParentIdKey: string := "parent_id"
  const DocTypeKey: string := "doc_type"
  const CategoryKey: string := "category"
  const DishNameKey: string := "dish_name"
  const DifficultyKey: string := "difficulty"

  // ---------------------------------------------------------------------
  // Category (lines 86-93)

  /** The label of the first entry, in table order, whose key is one of
      `parts`. */
  function FirstMatch(mapping: seq<(string, string)>, parts: seq<string>): Option<string>
  {
    if mapping == [] then None
    else if mapping[0].0 in parts then Some(mapping[0].1)
    else FirstMatch(mapping[1..], parts)
  }

  /** The category of a document whose source path has components `parts`. */
  function CategoryOf(parts: seq<string>): string
  {
    match FirstMatch(CategoryMapping, parts)
    case None => OtherCategory
    case Some(name) => name
  }

  /** FirstMatch finds the entry whose key is in `parts` while no earlier key
      is, and finds nothing exactly when no key is in `parts`. */
  lemma {:induction false} FirstMatchSpec(mapping: seq<(string, string)>, parts: seq<string>)
    ensures FirstMatch(mapping, parts).None? <==> forall i :: 0 <= i < |mapping| ==> mapping[i].0 !in parts
    ensures forall i :: 0 <= i < |mapping| && mapping[i].0 in parts && (forall j :: 0 <= j < i ==> mapping[j].0 !in parts)
              ==> FirstMatch(mapping, parts) == Some(mapping[i].1)
    decreases |mapping|
  {
    if mapping != [] {
      FirstMatchSpec(mapping[1..], parts);
      forall i | 0 <= i < |mapping| && mapping[i].0 in parts && (forall j :: 0 <= j < i ==> mapping[j].0 !in parts)
        ensures FirstMatch(mapping, parts) == Some(mapping[i].1)
      {
        if i > 0 {
          assert mapping[0].0 !in parts;
          assert mapping[1..][i - 1] == mapping[i];
          forall j | 0 <= j < i - 1 ensures mapping[1..][j].0 !in parts {
            assert mapping[1..][j] == mapping[j + 1];
          }
        }
      }
      if forall i :: 1 <= i < |mapping| ==> mapping[i].0 !in parts {
        forall i | 0 <= i < |mapping| - 1 ensures mapping[1..][i].0 !in parts {
          assert mapping[1..][i] == mapping[i + 1];
        }
      }
      if FirstMatch(mapping, parts).None? {
        forall i | 1 <= i < |mapping| ensures mapping[i].0 !in parts {
          assert mapping[1..][i - 1] == mapping[i];
        }
      }
    }
  }

  /** The category is the label of the first table key that is a component
      of the path, in table order, and "其他" exactly when no key is. */
  lemma CategoryIsFirstMatch(parts: seq<string>)
    ensures CategoryOf(parts) == OtherCategory <==> forall i :: 0 <= i < |CategoryMapping| ==> CategoryMapping[i].0 !in parts
    ensures forall i :: 0 <= i < |CategoryMapping| && CategoryMapping[i].0 in parts
              && (forall j :: 0 <= j < i ==> CategoryMapping[j].0 !in parts)
              ==> CategoryOf(parts) == CategoryMapping[i].1
    ensures CategoryOf(parts) in CategoryLabels + {OtherCategory}
  {
    FirstMatchSpec(CategoryMapping, parts);
    assert OtherCategory !in CategoryLabels;
    if FirstMatch(CategoryMapping, parts).Some? {
      var i :| 0 <= i < |CategoryMapping| && CategoryMapping[i].0 in parts;
      var m :| 0 <= m <= i && CategoryMapping[m].0 in parts && forall j :: 0 <= j < m ==> CategoryMapping[j].0 !in parts by {
        FirstIndex(CategoryMapping, parts, i);
      }
      assert CategoryOf(parts) == CategoryMapping[m].1;
    }
  }

  lemma {:induction false} FirstIndex(mapping: seq<(string, string)>, parts: seq<string>, i: nat)
    requires i < |mapping| && mapping[i].0 in parts
    ensures exists m :: 0 <= m <= i && mapping[m].0 in parts && forall j :: 0 <= j < m ==> mapping[j].0 !in parts
    decreases i
  {
    if !forall j :: 0 <= j < i ==> mapping[j].0 !in parts {
      var j :| 0 <= j < i && mapping[j].0 in parts;
      FirstIndex(mapping, parts, j);
    }
  }

  /** A path under `meat_dish` is a meat dish. */
  lemma CategoryOfMeatDish()
    ensures CategoryOf(Parts("dishes/meat_dish/红烧肉.md")) == "荤菜"
  {
    var cs := ["dishes", "meat_dish", "红烧肉.md"];
    assert JoinSlash(cs[2..]) == "红烧肉.md";
    assert JoinSlash(cs[1..]) == "meat_dish/红烧肉.md";
    assert JoinSlash(cs) == "dishes/meat_dish/红烧肉.md";
    PartsOfRelative(cs);
    CategoryIsFirstMatch(cs);
    assert CategoryMapping[0].0 in cs;
  }

  /** The lengths of the table keys. */
  lemma KeyLengths()
    ensures forall i :: 0 <= i < |CategoryMapping| ==> |CategoryMapping[i].0| in {4, 5, 6, 7, 9, 14}
  {
  }

  /** A component is matched by equality, not by substring: a path under
      `meat_dish_x` is not a meat dish. */
  lemma CategoryNotBySubstring()
    ensures CategoryOf(Parts("meat_dish_x/红烧肉菜谱.md")) == OtherCategory
  {
    var cs := ["meat_dish_x", "红烧肉菜谱.md"];
    assert JoinSlash(cs[1..]) == "红烧肉菜谱.md";
    assert JoinSlash(cs) == "meat_dish_x/红烧肉菜谱.md";
    PartsOfRelative(cs);
    CategoryIsFirstMatch(cs);
    KeyLengths();
  }

  /** When two table keys are components, the earlier table entry wins,
      whatever the order of the components. */
  lemma CategoryTableOrder()
    ensures CategoryOf(Parts("/drink/soup/奶茶菜谱.md")) == "汤品"
  {
    var cs := ["drink", "soup", "奶茶菜谱.md"];
    assert JoinSlash(cs[2..]) == "奶茶菜谱.md";
    assert JoinSlash(cs[1..]) == "soup/奶茶菜谱.md";
    assert JoinSlash(cs) == "drink/soup/奶茶菜谱.md";
    PartsOfAbsolute(cs);
    var parts := ["/"] + cs;
    assert CategoryMapping[2] == ("soup", "汤品");
    assert parts[2] == "soup";
    assert |CategoryMapping[0].0| == 9 && |CategoryMapping[1].0| == 14;
    assert forall j :: 0 <= j < |parts| ==> |parts[j]| != 9 && |parts[j]| != 14;
    FirstMatchSpec(CategoryMapping, parts);
    assert FirstMatch(CategoryMapping, parts) == Some("汤品");
  }

  // ---------------------------------------------------------------------
  // Difficulty (lines 99-111)

  /** `n` stars in a row. */
  function Stars(n: nat): (s: string)
    ensures |s| == n && forall i :: 0 <= i < n ==> s[i] == Star
  {
    seq(n, _ => Star)
  }

  /** `pat` occurs in `s` at position `i`. */
  predicate OccursAt(s: string, pat: string, i: nat)
  {
    i + |pat| <= |s| && s[i..i + |pat|] == pat
  }

  /** Python's substring test `pat in s`: a scan for `pat` at every
      position from `from` on. */
  predicate ContainsFrom(s: string, pat: string, from: nat)
    decreases |s| - from
  {
    from + |pat| <= |s| && (s[from..from + |pat|] == pat || ContainsFrom(s, pat, from + 1))
  }

  predicate Contains(s: string, pat: string)
  {
    ContainsFrom(s, pat, 0)
  }

  /** The scan finds `pat` exactly when it occurs at some position at or
      after `from`. */
  lemma {:induction false} ContainsFromSpec(s: string, pat: string, from: nat)
    ensures ContainsFrom(s, pat, from) <==> exists i: nat :: from <= i && OccursAt(s, pat, i)
    decreases |s| - from
  {
    if from + |pat| <= |s| {
      ContainsFromSpec(s, pat, from + 1);
      if ContainsFrom(s, pat, from) && !OccursAt(s, pat, from) {
        var i: nat :| from + 1 <= i && OccursAt(s, pat, i);
        assert OccursAt(s, pat, i);
      }
      if exists i: nat :: from <= i && OccursAt(s, pat, i) {
        var i: nat :| from <= i && OccursAt(s, pat, i);
        assert OccursAt(s, pat, i);
        if i > from {
          assert from + 1 <= i && OccursAt(s, pat, i);
        }
      }
    }
  }

  /** The `if`/`elif` chain of lines 100-111: the first star run, longest
      first, that occurs in the content decides the label. */
  function DifficultyOf(content: string): string
  {
    if Contains(content, Stars(5)) then DifficultyLabels[4]
    else if Contains(content, Stars(4)) then DifficultyLabels[3]
    else if Contains(content, Stars(3)) then DifficultyLabels[2]
    else if Contains(content, Stars(2)) then DifficultyLabels[1]
    else if Contains(content, Stars(1)) then DifficultyLabels[0]
    else UnknownDifficulty
  }

  /** The number of consecutive stars starting at position `i`. */
  function RunAt(s: string, i: nat): (n: nat)
    ensures i + n <= |s| || n == 0
    decreases |s| - i
  {
    if i >= |s| || s[i] != Star then 0 else 1 + RunAt(s, i + 1)
  }

  /** The longest run of stars starting at or after position `i`. */
  function LongestFrom(s: string, i: nat): nat
    decreases |s| - i
  {
    if i >= |s| then 0
    else
      var here, later := RunAt(s, i), LongestFrom(s, i + 1);
      if here >= later then here else later
  }

  /** The longest run of consecutive stars anywhere in `s`. */
  function LongestStarRun(s: string): nat
  {
    LongestFrom(s, 0)
  }

  lemma {:induction false} RunAtStars(s: string, i: nat)
    ensures forall j :: i <= j < i + RunAt(s, i) ==> j < |s| && s[j] == Star
    decreases |s| - i
  {
    if i < |s| && s[i] == Star {
      RunAtStars(s, i + 1);
      assert RunAt(s, i) == 1 + RunAt(s, i + 1);
      forall j | i <= j < i + RunAt(s, i) ensures j < |s| && s[j] == Star {
        if j > i {
          assert i + 1 <= j < i + 1 + RunAt(s, i + 1);
        }
      }
    } else {
      assert RunAt(s, i) == 0;
    }
  }

  lemma {:induction false} RunAtAtLeast(s: string, i: nat, n: nat)
    requires i + n <= |s| && forall j :: i <= j < i + n ==> s[j] == Star
    ensures RunAt(s, i) >= n
    decreases n
  {
    if n > 0 {
      RunAtAtLeast(s, i + 1, n - 1);
    }
  }

  lemma {:induction false} LongestFromBounds(s: string, i: nat, j: nat)
    requires i <= j < |s|
    ensures LongestFrom(s, i) >= RunAt(s, j)
    decreases j - i
  {
    if i < j {
      LongestFromBounds(s, i + 1, j);
    }
  }

  lemma {:induction false} LongestFromAttained(s: string, i: nat)
    ensures LongestFrom(s, i) == 0 || exists j :: i <= j < |s| && RunAt(s, j) == LongestFrom(s, i)
    decreases |s| - i
  {
    if i < |s| && LongestFrom(s, i) != 0 {
      LongestFromAttained(s, i + 1);
      if RunAt(s, i) < LongestFrom(s, i + 1) {
        var j :| i + 1 <= j < |s| && RunAt(s, j) == LongestFrom(s, i + 1);
        assert RunAt(s, j) == LongestFrom(s, i);
      } else {
        assert RunAt(s, i) == LongestFrom(s, i);
        assert exists j :: i <= j < |s| && RunAt(s, j) == LongestFrom(s, i);
      }
    }
  }

  /** A run of `n` stars occurs in `s` exactly when the longest run is at
      least `n` long. */
  lemma ContainsStarsIffRun(s: string, n: nat)
    requires n >= 1
    ensures Contains(s, Stars(n)) <==> n <= LongestStarRun(s)
  {
    ContainsFromSpec(s, Stars(n), 0);
    if Contains(s, Stars(n)) {
      var i: nat :| OccursAt(s, Stars(n), i);
      assert OccursAt(s, Stars(n), i);
      forall j | i <= j < i + n ensures s[j] == Star {
        assert s[i..i + n][j - i] == s[j];
      }
      RunAtAtLeast(s, i, n);
      LongestFromBounds(s, 0, i);
    }
    if n <= LongestStarRun(s) {
      LongestFromAttained(s, 0);
      var i :| 0 <= i < |s| && RunAt(s, i) == LongestStarRun(s);
      RunAtStars(s, i);
      assert s[i..i + n] == Stars(n);
      assert OccursAt(s, Stars(n), i);
    }
  }

  /** The label is determined by the longest run of stars, capped at five:
      one star "非常简单" up to five or more "非常困难", none "未知". The chain
      tests substring presence, so "★★ ★★★" is "中等", not a count of five. */
  lemma DifficultyMatchesLongestRun(s: string)
    ensures var m := if LongestStarRun(s) < 5 then LongestStarRun(s) else 5;
      DifficultyOf(s) == if m == 0 then UnknownDifficulty else DifficultyLabels[m - 1]
    ensures DifficultyOf(s) in DifficultyLabels + [UnknownDifficulty]
  {
    ContainsStarsIffRun(s, 1);
    ContainsStarsIffRun(s, 2);
    ContainsStarsIffRun(s, 3);
    ContainsStarsIffRun(s, 4);
    ContainsStarsIffRun(s, 5);
  }

  /** The difficulty is unknown exactly when the content has no star. */
  lemma DifficultyUnknownIffNoStar(s: string)
    ensures DifficultyOf(s) == UnknownDifficulty <==> Star !in s
  {
    DifficultyMatchesLongestRun(s);
    ContainsStarsIffRun(s, 1);
    ContainsFromSpec(s, Stars(1), 0);
    if Star in s {
      var i :| 0 <= i < |s| && s[i] == Star;
      assert s[i..i + 1] == Stars(1);
      assert OccursAt(s, Stars(1), i);
    }
    if Contains(s, Stars(1)) {
      var i: nat :| OccursAt(s, Stars(1), i);
      assert OccursAt(s, Stars(1), i);
      assert s[i..i + 1][0] == Star;
      assert Star in s;
    }
  }

  /** Two separate runs are not added up. */
  lemma DifficultyExample()
    ensures DifficultyOf("难度：★★ ★★★") == "中等"
  {
    var s := "难度：★★ ★★★";
    DifficultyMatchesLongestRun(s);
    assert RunAt(s, 3) == 2 && RunAt(s, 6) == 3;
    assert LongestStarRun(s) == 3;
  }

  // ---------------------------------------------------------------------
  // The enhanced metadata

  /** The source path as `metadata.get('source', '')` gives it, when it is
      a string. */
  function SourceText(meta: map<string, MetaValue>): string
    requires SourceKey !in meta || meta[SourceKey].Text?
  {
    if SourceKey in meta then meta[SourceKey].text else ""
  }

  /** `meta` with the three classification entries written, in the order
      `_enhance_metadata` writes them. */
  function Classified(meta: map<string, MetaValue>, category: string, dishName: string, difficulty: string): map<string, MetaValue>
  {
    meta[CategoryKey := Text(category)][DishNameKey := Text(dishName)][DifficultyKey := Text(difficulty)]
  }

  /** The metadata after `_enhance_metadata`: category, dish name and
      difficulty set from the source path and the content. */
  function Enhanced(meta: map<string, MetaValue>, content: string): map<string, MetaValue>
    requires SourceKey !in meta || meta[SourceKey].Text?
  {
    var source := SourceText(meta);
    Classified(meta, CategoryOf(Parts(source)), Stem(Name(source)), DifficultyOf(content))
  }

  /** The six metadata keys are different strings. */
  lemma KeysDistinct()
    ensures |{SourceKey, ParentIdKey, DocTypeKey, CategoryKey, DishNameKey, DifficultyKey}| == 6
  {
    assert SourceKey[0] == 's' && ParentIdKey[0] == 'p' && DocTypeKey[0] == 'd' && DocTypeKey[1] == 'o';
    assert CategoryKey[0] == 'c' && DishNameKey[1] == 'i' && DishNameKey[2] == 's';
    assert DifficultyKey[1] == 'i' && DifficultyKey[2] == 'f';
  }

  /** Writing the classification adds exactly its three keys and keeps every
      other entry. */
  lemma ClassifiedEntries(meta: map<string, MetaValue>, category: string, dishName: string, difficulty: string)
    ensures var e := Classified(meta, category, dishName, difficulty);
      && e.Keys == meta.Keys + {CategoryKey, DishNameKey, DifficultyKey}
      && (forall key :: key in meta && key != CategoryKey && key != DishNameKey && key != DifficultyKey ==> e[key] == meta[key])
      && e[CategoryKey] == Text(category) && e[DishNameKey] == Text(dishName) && e[DifficultyKey] == Text(difficulty)
  {
    KeysDistinct();
  }

  /** Enhancement sets exactly the three classification entries, each to a
      label of its closed set (the dish name to the file stem), and leaves
      every other entry — source, parent_id, doc_type — as it was. */
  lemma EnhancedEntries(meta: map<string, MetaValue>, content: string)
    requires SourceKey !in meta || meta[SourceKey].Text?
    ensures var e := Enhanced(meta, content);
      && e.Keys == meta.Keys + {CategoryKey, DishNameKey, DifficultyKey}
      && (forall key :: key in meta && key != CategoryKey && key != DishNameKey && key != DifficultyKey ==> e[key] == meta[key])
      && e[CategoryKey].Text? && e[CategoryKey].text in CategoryLabels + {OtherCategory}
      && e[DifficultyKey].Text? && e[DifficultyKey].text in DifficultyLabels + [UnknownDifficulty]
      && e[DishNameKey] == Text(Stem(Name(SourceText(meta))))
      && Stem(Name(SourceText(meta))) + Suffix(Name(SourceText(meta))) == Name(SourceText(meta))
  {
    var source := SourceText(meta);
    var category, dishName, difficulty := CategoryOf(Parts(source)), Stem(Name(source)), DifficultyOf(content);
    ClassifiedEntries(meta, category, dishName, difficulty);
    CategoryIsFirstMatch(Parts(source));
    DifficultyMatchesLongestRun(content);
    StemSuffix(Name(source));
  }

  /** A source file found by the glob: its path as `str(md_file)`, its path
      relative to the data root in POSIX form, and its text. The glob
      `*.md` is not recursive, so every file it yields sits directly in the
      data directory: the relative path is the file name, and all files of
      one load share the directory components that decide the category. */
  datatype SourceFile = SourceFile(path: string, relativePath: string, content: string)

  /** The metadata a parent document is created with (lines 62-69). */
  function ParentMetadata(f: SourceFile, md5: string -> string): map<string, MetaValue>
  {
    map[SourceKey := Text(f.path), ParentIdKey := Text(md5(f.relativePath)), DocTypeKey := Text(ParentDocType)]
  }

  /** A loaded document's metadata: marked "parent", identified by the digest
      of its relative path alone (so one path always gets one id), with its
      path kept as the source and the classification derived from it. */
  lemma LoadedMetadata(f: SourceFile, md5: string -> string)
    ensures var e := Enhanced(ParentMetadata(f, md5), f.content);
      && e.Keys == {SourceKey, ParentIdKey, DocTypeKey, CategoryKey, DishNameKey, DifficultyKey}
      && e[DocTypeKey] == Text(ParentDocType)
      && e[ParentIdKey] == Text(md5(f.relativePath))
      && e[SourceKey] == Text(f.path)
      && e[CategoryKey] == Text(CategoryOf(Parts(f.path)))
      && e[DishNameKey] == Text(Stem(Name(f.path)))
      && e[DifficultyKey] == Text(DifficultyOf(f.content))
  {
    var m := ParentMetadata(f, md5);
    KeysDistinct();
    assert SourceText(m) == f.path;
    ClassifiedEntries(m, CategoryOf(Parts(f.path)), Stem(Name(f.path)), DifficultyOf(f.content));
  }

  // ---------------------------------------------------------------------
  // The module object

  class DataPreparationModule {
    var dataPath: string
    /** Parent documents: whole recipes. */
    var documents: seq<Document>
    /** Child documents, split by heading (filled outside this model). */
    var chunks: seq<Document>
    /** Child id to parent id (filled outside this model). */
    var parentChildMap: map<string, string>

    /** `__init__` (lines 27-37). */
    constructor (dataPath: string)
      ensures this.dataPath == dataPath && documents == [] && chunks == [] && parentChildMap == map[]
    {
      this.dataPath := dataPath;
      documents := [];
      chunks := [];
      parentChildMap := map[];
    }

    /** `_enhance_metadata` with the table name corrected (line 90). A source
        that is not a string makes `Path(...)` raise TypeError before any
        write; otherwise the three entries are written in place. */
    method EnhanceMetadata(doc: Document) returns (raised: Option<PyError>)
      modifies doc
      ensures SourceKey in old(doc.metadata) && old(doc.metadata)[SourceKey].Score? ==>
        raised == Some(TypeError("float")) && doc.metadata == old(doc.metadata)
      ensures SourceKey !in old(doc.metadata) || old(doc.metadata)[SourceKey].Text? ==>
        raised == None && doc.metadata == Enhanced(old(doc.metadata), doc.content)
    {
      var source := if SourceKey in doc.metadata then doc.metadata[SourceKey] else Text("");
      if source.Score? {
        return Some(TypeError("float"));
      }
      SetCategory(doc, Parts(source.text));
      doc.metadata := doc.metadata[DishNameKey := Text(Stem(Name(source.text)))];
      SetDifficulty(doc);
      assert SourceText(old(doc.metadata)) == source.text;
      raised := None;
    }

    /** Lines 89-93: the default category, then the first table entry whose
        key is a path component overrides it and ends the scan. */
    method SetCategory(doc: Document, parts: seq<string>)
      modifies doc
      ensures doc.metadata == old(doc.metadata)[CategoryKey := Text(CategoryOf(parts))]
    {
      doc.metadata := doc.metadata[CategoryKey := Text(OtherCategory)];
      var i := 0;
      while i < |CategoryMapping|
        invariant 0 <= i <= |CategoryMapping|
        invariant FirstMatch(CategoryMapping[i..], parts) == FirstMatch(CategoryMapping, parts)
        invariant doc.metadata == old(doc.metadata)[CategoryKey := Text(OtherCategory)]
      {
        var (key, value) := CategoryMapping[i];
        if key in parts {
          doc.metadata := doc.metadata[CategoryKey := Text(value)];
          break;
        }
        assert CategoryMapping[i..][1..] == CategoryMapping[i + 1..];
        i := i + 1;
      }
    }

    /** Lines 99-111: the star runs are tested longest first. */
    method SetDifficulty(doc: Document)
      modifies doc
      ensures doc.metadata == old(doc.metadata)[DifficultyKey := Text(DifficultyOf(doc.content))]
    {
      var content := doc.content;
      if Contains(content, Stars(5)) {
        doc.metadata := doc.metadata[DifficultyKey := Text(DifficultyLabels[4])];
      } else if Contains(content, Stars(4)) {
        doc.metadata := doc.metadata[DifficultyKey := Text(DifficultyLabels[3])];
      } else if Contains(content, Stars(3)) {
        doc.metadata := doc.metadata[DifficultyKey := Text(DifficultyLabels[2])];
      } else if Contains(content, Stars(2)) {
        doc.metadata := doc.metadata[DifficultyKey := Text(DifficultyLabels[1])];
      } else if Contains(content, Stars(1)) {
        doc.metadata := doc.metadata[DifficultyKey := Text(DifficultyLabels[0])];
      } else {
        doc.metadata := doc.metadata[DifficultyKey := Text(UnknownDifficulty)];
      }
    }

    /** `load_documents` (lines 43-77): one new parent document per file, in
        the order the glob yields them, each then enhanced; the list becomes
        `self.documents`. An empty directory gives an empty list. */
    method LoadDocuments(files: seq<SourceFile>, md5: string -> string) returns (loaded: seq<Document>)
      modifies this
      ensures |loaded| == |files|
      ensures forall i :: 0 <= i < |files| ==>
        && fresh(loaded[i])
        && loaded[i].content == files[i].content
        && loaded[i].metadata == Enhanced(ParentMetadata(files[i], md5), files[i].content)
      ensures forall i, j :: 0 <= i < j < |loaded| ==> loaded[i] != loaded[j]
      ensures documents == loaded
      ensures dataPath == old(dataPath) && chunks == old(chunks) && parentChildMap == old(parentChildMap)
    {
      loaded := ReadParents(files, md5);
      KeysDistinct();
      assert forall j :: 0 <= j < |loaded| ==> loaded[j].metadata[SourceKey] == Text(files[j].path);
      EnhanceAll(loaded);
      documents := loaded;
    }

    /** The enhancement loop (lines 72-73), on documents whose sources are
        strings: each is enhanced in place, and only they change. */
    method EnhanceAll(docs: seq<Document>)
      requires forall j :: 0 <= j < |docs| ==> SourceKey in docs[j].metadata && docs[j].metadata[SourceKey].Text?
      requires forall i, j :: 0 <= i < j < |docs| ==> docs[i] != docs[j]
      modifies set d | d in docs
      ensures forall j :: 0 <= j < |docs| ==> docs[j].metadata == Enhanced(old(docs[j].metadata), docs[j].content)
    {
      var i := 0;
      while i < |docs|
        invariant 0 <= i <= |docs|
        invariant forall j :: 0 <= j < i ==> docs[j].metadata == Enhanced(old(docs[j].metadata), docs[j].content)
        invariant forall j :: i <= j < |docs| ==> docs[j].metadata == old(docs[j].metadata)
      {
        var raised := EnhanceMetadata(docs[i]);
        i := i + 1;
      }
    }

    /** The glob loop (lines 53-70): a fresh parent document per file. */
    method ReadParents(files: seq<SourceFile>, md5: string -> string) returns (parents: seq<Document>)
      ensures |parents| == |files|
      ensures forall i :: 0 <= i < |files| ==>
        fresh(parents[i]) && parents[i].content == files[i].content && parents[i].metadata == ParentMetadata(files[i], md5)
      ensures forall i, j :: 0 <= i < j < |parents| ==> parents[i] != parents[j]
    {
      parents := [];
      var i := 0;
      while i < |files|
        invariant 0 <= i <= |files| && |parents| == i
        invariant forall j :: 0 <= j < i ==>
          fresh(parents[j]) && parents[j].content == files[j].content && parents[j].metadata == ParentMetadata(files[j], md5)
        invariant forall a, b :: 0 <= a < b < i ==> parents[a] != parents[b]
      {
        var f := files[i];
        var parentId := md5(f.relativePath);
        var doc := new Document(f.content, map[SourceKey := Text(f.path), ParentIdKey := Text(parentId), DocTypeKey := Text(ParentDocType)]);
        parents := parents + [doc];
        i := i + 1;
      }
    }

    /** `_enhance_metadata` as written: line 89 sets the default category,
        then line 90 looks up `CATEGORY_MAPPING`, which the class does not
        define (its table is `CATEGROY_MAPPING`), and raises AttributeError. */
    method EnhanceMetadataAsWritten(doc: Document) returns (raised: Option<PyError>)
      modifies doc
      ensures SourceKey in old(doc.metadata) && old(doc.metadata)[SourceKey].Score? ==>
        raised == Some(TypeError("float")) && doc.metadata == old(doc.metadata)
      ensures SourceKey !in old(doc.metadata) || old(doc.metadata)[SourceKey].Text? ==>
        raised == Some(AttributeError("CATEGORY_MAPPING"))
        && doc.metadata == old(doc.metadata)[CategoryKey := Text(OtherCategory)]
    {
      var source := if SourceKey in doc.metadata then doc.metadata[SourceKey] else Text("");
      if source.Score? {
        return Some(TypeError("float"));
      }
      doc.metadata := doc.metadata[CategoryKey := Text(OtherCategory)];
      raised := Some(AttributeError("CATEGORY_MAPPING"));
    }

    /** `load_documents` as written: the first enhancement raises, so any
        non-empty directory fails and `self.documents` keeps its old value;
        only an empty directory loads (nothing). */
    method LoadDocumentsAsWritten(files: seq<SourceFile>, md5: string -> string) returns (r: Result<seq<Document>>)
      modifies this
      ensures files == [] ==> r == Ok([]) && documents == []
      ensures files != [] ==> r == Err(AttributeError("CATEGORY_MAPPING")) && documents == old(documents)
      ensures dataPath == old(dataPath) && chunks == old(chunks) && parentChildMap == old(parentChildMap)
    {
      var loaded := ReadParents(files, md5);
      if |loaded| > 0 {
        var raised := EnhanceMetadataAsWritten(loaded[0]);
        return Err(raised.value);
      }
      documents := loaded;
      r := Ok(loaded);
    }
  }
}
