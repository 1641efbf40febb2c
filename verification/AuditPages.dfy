/** The fields of an audit batch, cut into sections, and put together again. */
module AuditSections {
  import opened Wrappers

  const PAGE_BYTES: nat := 98304
  const WIDTH: nat := 12288
  const CONTEXT: nat := 256

  datatype FieldName = Before | After | Diff

  datatype File = File(path: string, before: Option<string>, after: Option<string>, diff: Option<string>)

  datatype Commit = Commit(sha: string, files: seq<File>)

  type Batch = seq<Commit>

  /** One field of one file of one commit. */
  datatype Field = Field(commit: string, path: string, name: FieldName, text: Option<string>)

  datatype Section = Section(
    commit: string,
    path: string,
    name: FieldName,
    start: nat,
    total: nat,
    text: Option<string>,
    prefix: string)

  type Page = seq<Section>

  function TextOf(f: Field): string {
    f.text.GetOr("")
  }

  function FieldsOf(sha: string, file: File): seq<Field> {
    [Field(sha, file.path, Before, file.before),
     Field(sha, file.path, After, file.after),
     Field(sha, file.path, Diff, file.diff)]
  }

  function FileFields(sha: string, files: seq<File>): seq<Field> {
    FlatMap((file: File) => FieldsOf(sha, file), files)
  }

  function Fields(batch: Batch): seq<Field> {
    FlatMap((c: Commit) => FileFields(c.sha, c.files), batch)
  }

  // ----------------------------------------------------------------- cutting

  /** One past the last newline in text[lo..hi], or hi when there is none. */
  function AfterNewline(text: string, lo: nat, hi: nat): (end: nat)
    requires lo < hi <= |text|
    ensures lo < end <= hi
    ensures end < hi ==> text[end - 1] == '\n' && '\n' !in text[end..hi]
    decreases hi
  {
    LastNewline(text, lo, hi, hi)
  }

  function LastNewline(text: string, lo: nat, at: nat, hi: nat): (end: nat)
    requires lo < hi <= |text| && lo <= at <= hi && '\n' !in text[at..hi]
    ensures lo < end <= hi
    ensures end < hi ==> text[end - 1] == '\n' && '\n' !in text[end..hi]
    decreases at
  {
    if at == lo then hi
    else if text[at - 1] == '\n' then at
    else
      assert text[at - 1..hi] == [text[at - 1]] + text[at..hi];
      LastNewline(text, lo, at - 1, hi)
  }

  /** Where the section that starts here ends. */
  function Cut(text: string, start: nat): (end: nat)
    requires start <= |text|
    ensures start <= end <= |text| && end <= start + WIDTH
    ensures start < |text| ==> start < end
  {
    if start + WIDTH < |text| then AfterNewline(text, start, start + WIDTH) else |text|
  }

  function SectionAt(f: Field, start: nat): Section
    requires start <= |TextOf(f)|
  {
    var text := TextOf(f);
    Section(f.commit, f.path, f.name, start, |text|,
            if f.text.None? then None else Some(text[start..Cut(text, start)]),
            text[if start < CONTEXT then 0 else start - CONTEXT..start])
  }

  /** The sections of a field from here on. */
  function SectionsFrom(f: Field, start: nat): (sections: seq<Section>)
    requires start <= |TextOf(f)|
    ensures sections != []
    decreases |TextOf(f)| - start
  {
    var end := Cut(TextOf(f), start);
    if end == |TextOf(f)| then [SectionAt(f, start)]
    else [SectionAt(f, start)] + SectionsFrom(f, end)
  }

  /** The concatenation of what g makes of each element. */
  function FlatMap<T, U>(g: T -> seq<U>, xs: seq<T>): seq<U> {
    if xs == [] then [] else FlatMap(g, xs[..|xs| - 1]) + g(xs[|xs| - 1])
  }

  const CUT: Field -> seq<Section> := (f: Field) => SectionsFrom(f, 0)

  function Sections(fields: seq<Field>): seq<Section> {
    FlatMap(CUT, fields)
  }

  // ------------------------------------------------------------------ paging

  /** The encoded size of a section with its separator. */
  type Measure = Section -> nat

  function Size(page: Page, measure: Measure): nat {
    if page == [] then 0 else Size(page[..|page| - 1], measure) + measure(page[|page| - 1])
  }

  function Flatten(pages: seq<Page>): seq<Section> {
    if pages == [] then [] else Flatten(pages[..|pages| - 1]) + pages[|pages| - 1]
  }

  predicate Bounded(pages: seq<Page>, measure: Measure) {
    forall i :: 0 <= i < |pages| ==> pages[i] != [] && Size(pages[i], measure) <= PAGE_BYTES
  }

  predicate Oversized(sections: seq<Section>, measure: Measure) {
    exists i :: 0 <= i < |sections| && measure(sections[i]) > PAGE_BYTES
  }

  lemma OversizedConcat(a: seq<Section>, b: seq<Section>, measure: Measure)
    ensures Oversized(a + b, measure) <==> Oversized(a, measure) || Oversized(b, measure)
  {
    assert forall i :: 0 <= i < |a| ==> (a + b)[i] == a[i];
    assert forall i :: 0 <= i < |b| ==> (a + b)[|a| + i] == b[i];
  }

  lemma LastSplit<T>(a: seq<T>, b: seq<T>)
    requires b != []
    ensures b == b[..|b| - 1] + [b[|b| - 1]]
    ensures a + b == (a + b[..|b| - 1]) + [b[|b| - 1]]
  {
  }

  lemma AppendAssoc<T>(a: seq<T>, b: seq<T>, x: T)
    ensures a + (b + [x]) == (a + b) + [x]
  {
  }

  lemma FlatMapLast<T, U>(g: T -> seq<U>, xs: seq<T>, x: T)
    ensures FlatMap(g, xs + [x]) == FlatMap(g, xs) + g(x)
  {
    assert (xs + [x])[..|xs|] == xs;
  }

  lemma FlatMapStep<T, U>(g: T -> seq<U>, a: seq<T>, init: seq<T>, x: T)
    requires FlatMap(g, a + init) == FlatMap(g, a) + FlatMap(g, init)
    ensures FlatMap(g, a + (init + [x])) == FlatMap(g, a) + FlatMap(g, init + [x])
  {
    AppendAssoc(a, init, x);
    FlatMapLast(g, a + init, x);
    FlatMapLast(g, init, x);
  }

  lemma {:induction false} FlatMapConcat<T, U>(g: T -> seq<U>, a: seq<T>, b: seq<T>)
    ensures FlatMap(g, a + b) == FlatMap(g, a) + FlatMap(g, b)
    decreases |b|
  {
    if b == [] {
      assert a + b == a;
    } else {
      var init, x := b[..|b| - 1], b[|b| - 1];
      FlatMapConcat(g, a, init);
      FlatMapStep(g, a, init, x);
      assert b == init + [x];
    }
  }

  lemma SectionsLast(fields: seq<Field>, f: Field)
    ensures Sections(fields + [f]) == Sections(fields) + SectionsFrom(f, 0)
  {
    FlatMapLast(CUT, fields, f);
  }

  lemma SectionsConcat(a: seq<Field>, b: seq<Field>)
    ensures Sections(a + b) == Sections(a) + Sections(b)
  {
    FlatMapConcat(CUT, a, b);
  }

  lemma FileFieldsLast(sha: string, files: seq<File>, file: File)
    ensures FileFields(sha, files + [file]) == FileFields(sha, files) + FieldsOf(sha, file)
  {
    FlatMapLast((file: File) => FieldsOf(sha, file), files, file);
  }

  lemma FileFieldsConcat(sha: string, a: seq<File>, b: seq<File>)
    ensures FileFields(sha, a + b) == FileFields(sha, a) + FileFields(sha, b)
  {
    FlatMapConcat((file: File) => FieldsOf(sha, file), a, b);
  }

  lemma FieldsLast(batch: Batch, c: Commit)
    ensures Fields(batch + [c]) == Fields(batch) + FileFields(c.sha, c.files)
  {
    FlatMapLast((c: Commit) => FileFields(c.sha, c.files), batch, c);
  }

  lemma FieldsConcat(a: Batch, b: Batch)
    ensures Fields(a + b) == Fields(a) + Fields(b)
  {
    FlatMapConcat((c: Commit) => FileFields(c.sha, c.files), a, b);
  }

  lemma SplitAt<T>(xs: seq<T>, k: nat)
    requires k < |xs|
    ensures xs[..k + 1] == xs[..k] + [xs[k]]
    ensures xs == xs[..k + 1] + xs[k + 1..]
    ensures xs == xs[..k] + [xs[k]] + xs[k + 1..]
  {
  }

  // -------------------------------------------------------------- rebuilding

  /** Puts received sections together: a section that starts at zero begins a field, and
      every other one continues the last. */
  function Rebuild(sections: seq<Section>): seq<Field> {
    if sections == [] then []
    else
      var s := sections[|sections| - 1];
      var fields := Rebuild(sections[..|sections| - 1]);
      if s.start == 0 || fields == [] then fields + [Field(s.commit, s.path, s.name, s.text)]
      else
        var last := fields[|fields| - 1];
        fields[..|fields| - 1] + [last.(text := Some(TextOf(last) + s.text.GetOr("")))]
  }

  /** A later section extends the last field. */
  lemma RebuildOne(sections: seq<Section>, init: seq<Field>, f: Field, start: nat)
    requires f.text.Some? && 0 < start < |f.text.value|
    requires Rebuild(sections) == init + [f.(text := Some(f.text.value[..start]))]
    ensures Rebuild(sections + [SectionAt(f, start)])
         == init + [f.(text := Some(f.text.value[..Cut(f.text.value, start)]))]
  {
    var text := f.text.value;
    var s := SectionAt(f, start);
    assert (sections + [s])[..|sections|] == sections;
    assert text[..start] + text[start..Cut(text, start)] == text[..Cut(text, start)];
  }

  /** Sections of one field after its beginning only extend it. */
  lemma {:induction false} RebuildRest(sections: seq<Section>, init: seq<Field>, f: Field, start: nat)
    requires f.text.Some? && 0 < start <= |f.text.value|
    requires Rebuild(sections) == init + [f.(text := Some(f.text.value[..start]))]
    requires start < |f.text.value|
    ensures Rebuild(sections + SectionsFrom(f, start)) == init + [f]
    decreases |f.text.value| - start
  {
    var text := f.text.value;
    var end := Cut(text, start);
    var s := SectionAt(f, start);
    var longer := sections + [s];
    RebuildOne(sections, init, f, start);
    if end == |text| {
      assert text[..end] == text;
    } else {
      assert sections + SectionsFrom(f, start) == longer + SectionsFrom(f, end);
      RebuildRest(longer, init, f, end);
    }
  }

  lemma RebuildField(sections: seq<Section>, f: Field)
    ensures Rebuild(sections + SectionsFrom(f, 0)) == Rebuild(sections) + [f]
  {
    var text := TextOf(f);
    var end := Cut(text, 0);
    var longer := sections + [SectionAt(f, 0)];
    RebuildFirst(sections, f, end);
    if end != |text| {
      assert sections + SectionsFrom(f, 0) == longer + SectionsFrom(f, end);
      RebuildRest(longer, Rebuild(sections), f, end);
    }
  }

  /** The first section of a field begins a new field. */
  lemma RebuildFirst(sections: seq<Section>, f: Field, end: nat)
    requires end == Cut(TextOf(f), 0)
    ensures Rebuild(sections + [SectionAt(f, 0)])
         == Rebuild(sections) + [if f.text.None? then f else f.(text := Some(f.text.value[..end]))]
    ensures end == |TextOf(f)| ==> Rebuild(sections + [SectionAt(f, 0)]) == Rebuild(sections) + [f]
  {
    var text := TextOf(f);
    assert (sections + [SectionAt(f, 0)])[..|sections|] == sections;
    assert text[0..end] == text[..end] && text[..|text|] == text;
  }

  /** Nothing is lost: the sections of all pages give every field back, in order, with
      missing texts still missing. */
  lemma {:induction false} RebuildSections(fields: seq<Field>)
    ensures Rebuild(Sections(fields)) == fields
    decreases |fields|
  {
    if fields != [] {
      var n := |fields| - 1;
      RebuildSections(fields[..n]);
      LastSplit([], fields);
      SectionsLast(fields[..n], fields[n]);
      RebuildField(Sections(fields[..n]), fields[n]);
    }
  }

  /** A size that bounds what JSON and UTF-8 add: six bytes a character at most. */
  ghost predicate Encodes(measure: Measure, overhead: (string, string) -> nat) {
    forall s: Section ::
      measure(s) <= 6 * (|s.text.GetOr("")| + |s.prefix|) + overhead(s.commit, s.path)
  }

  /** Long text never exceeds a page: only the names of a commit and a path can. */
  lemma {:induction false} OnlyNamesOverflow(f: Field, start: nat, measure: Measure, overhead: (string, string) -> nat)
    requires start <= |TextOf(f)| && Encodes(measure, overhead)
    requires overhead(f.commit, f.path) <= PAGE_BYTES - 6 * (WIDTH + CONTEXT)
    ensures !Oversized(SectionsFrom(f, start), measure)
    decreases |TextOf(f)| - start
  {
    var end := Cut(TextOf(f), start);
    var s := SectionAt(f, start);
    assert measure(s) <= 6 * (|s.text.GetOr("")| + |s.prefix|) + overhead(s.commit, s.path);
    if end != |TextOf(f)| {
      OnlyNamesOverflow(f, end, measure, overhead);
      OversizedConcat([s], SectionsFrom(f, end), measure);
    }
  }
}

/** Splitting an audit batch into bounded pages without losing a character. */
module AuditPages {
  import opened Wrappers
  import opened AuditSections

  lemma PageClosed(pages: seq<Page>, page: Page)
    ensures Flatten(pages + [page]) == Flatten(pages) + page
  {
    assert (pages + [page])[..|pages|] == pages;
  }

  lemma SizeAppend(page: Page, section: Section, measure: Measure)
    ensures Size(page + [section], measure) == Size(page, measure) + measure(section)
  {
    assert (page + [section])[..|page|] == page;
  }

  /** The pages closed so far, and the one that is being filled. */
  class Paginator {
    const measure: Measure
    var closed: seq<Page>
    var current: Page
    var size: nat

    ghost predicate Holds(sections: seq<Section>)
      reads this
    {
      && Flatten(closed) + current == sections
      && Bounded(closed, measure)
      && size == Size(current, measure) <= PAGE_BYTES
      && (sections != [] ==> current != [])
    }

    constructor (measure: Measure)
      ensures this.measure == measure && Holds([])
    {
      this.measure := measure;
      closed, current, size := [], [], 0;
    }

    /** Closes the current page and begins an empty one. */
    method Close(ghost sections: seq<Section>)
      requires Holds(sections) && current != []
      modifies this
      ensures Flatten(closed) == sections && Bounded(closed, measure) && current == [] && size == 0
    {
      PageClosed(closed, current);
      closed := closed + [current];
      current, size := [], 0;
    }

    /** Puts one section on the current page, or on a new one when it does not fit. */
    method Add(section: Section, ghost sections: seq<Section>) returns (ok: bool)
      requires Holds(sections)
      modifies this
      ensures ok <==> measure(section) <= PAGE_BYTES
      ensures ok ==> Holds(sections + [section])
    {
      var length := measure(section);
      if length > PAGE_BYTES {
        return false;
      }
      if current != [] && size + length > PAGE_BYTES {
        Close(sections);
      }
      SizeAppend(current, section, measure);
      AppendAssoc(Flatten(closed), current, section);
      current := current + [section];
      size := size + length;
      return true;
    }

    /** Cuts one field into sections and adds them. */
    method AddField(f: Field, ghost sections: seq<Section>) returns (ok: bool)
      requires Holds(sections)
      modifies this
      ensures ok <==> !Oversized(SectionsFrom(f, 0), measure)
      ensures ok ==> Holds(sections + SectionsFrom(f, 0))
    {
      var text := TextOf(f);
      var start := 0;
      ghost var held := sections;
      assert sections + SectionsFrom(f, 0) == held + SectionsFrom(f, start);
      while true
        invariant start <= |text|
        invariant Holds(held) && held + SectionsFrom(f, start) == sections + SectionsFrom(f, 0)
        invariant Oversized(SectionsFrom(f, start), measure) <==> Oversized(SectionsFrom(f, 0), measure)
        decreases |text| - start
      {
        var end := if start + WIDTH < |text| then start + WIDTH else |text|;
        if end < |text| {
          end := AfterNewline(text, start, end);
        }
        SectionsStep(f, start, held, measure);
        var section := SectionAt(f, start);
        ok := Add(section, held);
        if !ok {
          return;
        }
        held := held + [section];
        if end == |text| {
          return;
        }
        start := end;
      }
    }

    /** Adds the three fields of a file. */
    method AddFile(sha: string, file: File, ghost sections: seq<Section>) returns (ok: bool)
      requires Holds(sections)
      modifies this
      ensures ok <==> !Oversized(Sections(FieldsOf(sha, file)), measure)
      ensures ok ==> Holds(sections + Sections(FieldsOf(sha, file)))
    {
      var parts := FieldsOf(sha, file);
      assert sections + Sections([]) == sections;
      for k := 0 to |parts|
        invariant Holds(sections + Sections(parts[..k])) && !Oversized(Sections(parts[..k]), measure)
      {
        NextField(parts, k, sections, measure);
        ok := AddField(parts[k], sections + Sections(parts[..k]));
        if !ok {
          return;
        }
      }
      assert parts[..|parts|] == parts;
      ok := true;
    }

    /** Adds all files of a commit. */
    method AddCommit(commit: Commit, ghost sections: seq<Section>) returns (ok: bool)
      requires Holds(sections)
      modifies this
      ensures ok <==> !Oversized(Sections(FileFields(commit.sha, commit.files)), measure)
      ensures ok ==> Holds(sections + Sections(FileFields(commit.sha, commit.files)))
    {
      var sha, files := commit.sha, commit.files;
      assert sections + Sections([]) == sections;
      for i := 0 to |files|
        invariant Holds(sections + Sections(FileFields(sha, files[..i])))
        invariant !Oversized(Sections(FileFields(sha, files[..i])), measure)
      {
        NextFile(sha, files, i, sections, measure);
        ok := AddFile(sha, files[i], sections + Sections(FileFields(sha, files[..i])));
        if !ok {
          return;
        }
      }
      assert files[..|files|] == files;
      ok := true;
    }
  }

  lemma SectionsStep(f: Field, start: nat, held: seq<Section>, measure: Measure)
    requires start <= |TextOf(f)|
    ensures var end := Cut(TextOf(f), start);
            var s := SectionAt(f, start);
            if end == |TextOf(f)| then
              && SectionsFrom(f, start) == [s]
              && (Oversized(SectionsFrom(f, start), measure) <==> measure(s) > PAGE_BYTES)
            else
              && held + SectionsFrom(f, start) == (held + [s]) + SectionsFrom(f, end)
              && (Oversized(SectionsFrom(f, start), measure) <==>
                    (measure(s) > PAGE_BYTES || Oversized(SectionsFrom(f, end), measure)))
  {
    var end := Cut(TextOf(f), start);
    var s := SectionAt(f, start);
    assert Oversized([s], measure) <==> measure(s) > PAGE_BYTES by { assert [s][0] == s; }
    if end != |TextOf(f)| {
      OversizedConcat([s], SectionsFrom(f, end), measure);
    }
  }

  /** Adding the fields `more` after the fields `first`, of `all` in the end. */
  lemma NextFields(first: seq<Field>, more: seq<Field>, rest: seq<Field>, sections: seq<Section>, measure: Measure)
    ensures sections + Sections(first + more) == (sections + Sections(first)) + Sections(more)
    ensures Oversized(Sections(first + more), measure)
        <==> Oversized(Sections(first), measure) || Oversized(Sections(more), measure)
    ensures Oversized(Sections(first + more), measure) ==> Oversized(Sections(first + more + rest), measure)
  {
    SectionsConcat(first, more);
    SectionsConcat(first + more, rest);
    OversizedConcat(Sections(first), Sections(more), measure);
    OversizedConcat(Sections(first + more), Sections(rest), measure);
  }

  /** One more field; one that does not fit shows in all the fields. */
  lemma NextField(parts: seq<Field>, k: nat, sections: seq<Section>, measure: Measure)
    requires k < |parts|
    ensures sections + Sections(parts[..k + 1]) == (sections + Sections(parts[..k])) + SectionsFrom(parts[k], 0)
    ensures Oversized(Sections(parts[..k + 1]), measure)
        <==> Oversized(Sections(parts[..k]), measure) || Oversized(SectionsFrom(parts[k], 0), measure)
    ensures Oversized(Sections(parts[..k + 1]), measure) ==> Oversized(Sections(parts), measure)
  {
    SplitAt(parts, k);
    OneField(parts[k]);
    NextFields(parts[..k], [parts[k]], parts[k + 1..], sections, measure);
  }

  lemma OneField(f: Field)
    ensures Sections([f]) == SectionsFrom(f, 0)
  {
    SectionsLast([], f);
    assert [] + [f] == [f];
  }

  lemma NextFile(sha: string, files: seq<File>, i: nat, sections: seq<Section>, measure: Measure)
    requires i < |files|
    ensures var first, more := FileFields(sha, files[..i]), FieldsOf(sha, files[i]);
            && FileFields(sha, files[..i + 1]) == first + more
            && sections + Sections(first + more) == (sections + Sections(first)) + Sections(more)
            && (Oversized(Sections(first + more), measure)
                <==> Oversized(Sections(first), measure) || Oversized(Sections(more), measure))
            && (Oversized(Sections(first + more), measure) ==> Oversized(Sections(FileFields(sha, files)), measure))
  {
    SplitAt(files, i);
    FileFieldsLast(sha, files[..i], files[i]);
    FileFieldsConcat(sha, files[..i + 1], files[i + 1..]);
    NextFields(FileFields(sha, files[..i]), FieldsOf(sha, files[i]), FileFields(sha, files[i + 1..]), sections,
               measure);
  }

  lemma NextCommit(batch: Batch, c: nat, measure: Measure)
    requires c < |batch|
    ensures var first, more := Fields(batch[..c]), FileFields(batch[c].sha, batch[c].files);
            && Fields(batch[..c + 1]) == first + more
            && Sections(first + more) == Sections(first) + Sections(more)
            && (Oversized(Sections(first + more), measure)
                <==> Oversized(Sections(first), measure) || Oversized(Sections(more), measure))
            && (Oversized(Sections(first + more), measure) ==> Oversized(Sections(Fields(batch)), measure))
  {
    SplitAt(batch, c);
    FieldsLast(batch[..c], batch[c]);
    FieldsConcat(batch[..c + 1], batch[c + 1..]);
    NextFields(Fields(batch[..c]), FileFields(batch[c].sha, batch[c].files), Fields(batch[c + 1..]), [], measure);
    SectionsConcat(Fields(batch[..c]), FileFields(batch[c].sha, batch[c].files));
  }

  /** All pages of a batch; fails exactly when some section alone exceeds a page. */
  method Pages(batch: Batch, measure: Measure) returns (pages: Option<seq<Page>>)
    ensures pages.None? <==> Oversized(Sections(Fields(batch)), measure)
    ensures pages.Some? ==> Flatten(pages.value) == Sections(Fields(batch)) && Bounded(pages.value, measure)
  {
    var p := new Paginator(measure);
    for c := 0 to |batch|
      invariant fresh(p) && p.measure == measure
      invariant p.Holds(Sections(Fields(batch[..c]))) && !Oversized(Sections(Fields(batch[..c])), measure)
    {
      NextCommit(batch, c, measure);
      var ok := p.AddCommit(batch[c], Sections(Fields(batch[..c])));
      if !ok {
        return None;
      }
    }
    assert batch[..|batch|] == batch;
    if p.current != [] {
      PageClosed(p.closed, p.current);
      return Some(p.closed + [p.current]);
    }
    assert Flatten(p.closed) + [] == Flatten(p.closed);
    return Some(p.closed);
  }
}
