/** The notes page: the note form, the displayed list (search or local notes, category filter,
    pinned-first sort), the per-category counts, the content preview, and the handlers that
    replace the page's notes array or the form's tag list. The page's notes start out as the
    one shared demo notes array, which the displayed-list sort can reorder in place. */
module NotesPage {
  import opened Wrappers
  import opened Seqs
  import opened Sorting
  import opened Text
  import opened DemoData

  /** The form the create and edit dialog fills in. */
  datatype NoteForm = NoteForm(title: string, content: string, category: string, tags: seq<string>)

  const EmptyForm: NoteForm := NoteForm("", "", "Personal", [])

  /** The form a note opens with. */
  function FormOf(n: Note): (f: NoteForm)
    ensures f.title == n.title && f.content == n.content && f.category == n.category && f.tags == n.tags
  {
    NoteForm(n.title, n.content, n.category, n.tags)
  }

  /** The sort comparator as "`a` may stay before `b`" (the comparator returns at most 0):
      a pinned note before an unpinned one; within the same pinned state by title under the
      locale order `titleLe` for `'title'`, newest created first for `'created'`, and newest
      updated first for `'updated'` or any other key. */
  function NoteLe(sortBy: string, titleLe: (string, string) -> bool): (Note, Note) -> bool {
    (a: Note, b: Note) =>
      if a.isPinned && !b.isPinned then true
      else if !a.isPinned && b.isPinned then false
      else if sortBy == "title" then titleLe(a.title, b.title)
      else if sortBy == "created" then a.createdAt >= b.createdAt
      else a.updatedAt >= b.updatedAt
  }

  /** With a consistent locale order the comparator is consistent for every sort key. */
  lemma NoteLePreorder(sortBy: string, titleLe: (string, string) -> bool)
    requires TotalPreorder(titleLe)
    ensures TotalPreorder(NoteLe(sortBy, titleLe))
  {
    var le := NoteLe(sortBy, titleLe);
    forall a, b, c | le(a, b) && le(b, c) ensures le(a, c) {
      if a.isPinned == b.isPinned && b.isPinned == c.isPinned && sortBy == "title" {
        assert titleLe(a.title, b.title) && titleLe(b.title, c.title);
      }
    }
    forall a, b ensures le(a, b) || le(b, a) {
      if a.isPinned == b.isPinned && sortBy == "title" {
        assert titleLe(a.title, b.title) || titleLe(b.title, a.title);
      }
    }
  }

  /** The list the sort starts from: the search results over the demo notes for a non-empty
      query, else the page's own notes; then only the selected category unless it is `'All'`. */
  function DisplayedSource(notes: seq<Note>, demo: seq<Note>, query: string, category: string): (r: seq<Note>)
    ensures category != "All" ==> forall i :: 0 <= i < |r| ==> r[i].category == category
    ensures query != "" ==> forall i :: 0 <= i < |r| ==> r[i] in demo && Matches(r[i], Lower(query))
    ensures query == "" ==> forall i :: 0 <= i < |r| ==> r[i] in notes
    ensures query == "" && category == "All" ==> r == notes
    ensures forall n :: n in r <==>
      && (if query != "" then n in demo && Matches(n, Lower(query)) else n in notes)
      && (category == "All" || n.category == category)
  {
    var base := if query != "" then SearchNotes(demo, query, None) else notes;
    if category != "All" then Filter(base, (n: Note) => n.category == category) else base
  }

  /** `filteredAndSortedNotes`: the stable sort of that list by the comparator. */
  function Displayed(notes: seq<Note>, demo: seq<Note>, query: string, category: string,
                     sortBy: string, titleLe: (string, string) -> bool): (r: seq<Note>)
    ensures multiset(r) == multiset(DisplayedSource(notes, demo, query, category))
  {
    Sort(DisplayedSource(notes, demo, query, category), NoteLe(sortBy, titleLe))
  }

  /** Whatever the key, the displayed list has every pinned note before every unpinned one,
      and within the same pinned state it is ordered by the key. */
  lemma DisplayedOrder(notes: seq<Note>, demo: seq<Note>, query: string, category: string,
                       sortBy: string, titleLe: (string, string) -> bool)
    requires TotalPreorder(titleLe)
    ensures var r := Displayed(notes, demo, query, category, sortBy, titleLe);
      forall i, j :: 0 <= i < j < |r| ==>
        && (r[j].isPinned ==> r[i].isPinned)
        && (r[i].isPinned == r[j].isPinned ==>
              if sortBy == "title" then titleLe(r[i].title, r[j].title)
              else if sortBy == "created" then r[i].createdAt >= r[j].createdAt
              else r[i].updatedAt >= r[j].updatedAt)
  {
    var le := NoteLe(sortBy, titleLe);
    NoteLePreorder(sortBy, titleLe);
    SortSorted(DisplayedSource(notes, demo, query, category), le);
    var r := Displayed(notes, demo, query, category, sortBy, titleLe);
    forall i, j | 0 <= i < j < |r| ensures le(r[i], r[j]) {
    }
  }

  /** The displayed list holds exactly the notes of its source, so a selected category shows
      only that category, and a non-empty query shows only matching demo notes, never the
      page's own. */
  lemma DisplayedMembers(notes: seq<Note>, demo: seq<Note>, query: string, category: string,
                         sortBy: string, titleLe: (string, string) -> bool)
    ensures var r := Displayed(notes, demo, query, category, sortBy, titleLe);
      && (category != "All" ==> forall n :: n in r ==> n.category == category)
      && (query != "" ==> forall n :: n in r ==> n in demo && Matches(n, Lower(query)))
  {
    var r := Displayed(notes, demo, query, category, sortBy, titleLe);
    var src := DisplayedSource(notes, demo, query, category);
    forall n | n in r ensures n in src {
      assert n in multiset(r);
    }
  }

  /** `categoryCount[c]`: the number of page notes of category `c`, all of them for `'All'`;
      a category outside the demo categories has no entry. */
  function CategoryCount(notes: seq<Note>, c: string): (r: Option<nat>)
    ensures r.Some? <==> c in DemoCategories
    ensures r.Some? ==> r.value <= |notes|
    ensures c == "All" ==> r == Some(|notes|)
    ensures c in DemoCategories ==> r == Some(|DisplayedSource(notes, [], "", c)|)
    ensures c in DemoCategories ==> r == Some(|NotesByCategory(notes, c, None)|)
  {
    if c !in DemoCategories then None
    else if c == "All" then Some(|notes|)
    else Some(Count(notes, (n: Note) => n.category == c))
  }

  /** The characters the preview blanks out: `#`, `*`, backquote, brackets, parentheses and
      the line feed. */
  predicate IsMarkup(c: char) {
    c == '#' || c == '*' || c == '`' || c == '[' || c == ']' || c == '(' || c == ')' || c == '\n'
  }

  /** `content.replace(/[#*`\[\]()\n]/g, ' ')`. */
  function BlankMarkup(s: string): (r: string)
    ensures |r| == |s|
    ensures forall i :: 0 <= i < |s| ==> r[i] == if IsMarkup(s[i]) then ' ' else s[i]
  {
    seq(|s|, i requires 0 <= i < |s| => if IsMarkup(s[i]) then ' ' else s[i])
  }

  /** `getPreviewContent(content, limit)`: the trimmed text with markup blanked, cut to its
      first `limit` characters followed by `...` when it is longer. */
  function PreviewContent(content: string, limit: nat): (r: string)
    ensures var plain := Trim(BlankMarkup(content));
      && (|plain| <= limit ==> r == plain)
      && (|plain| > limit ==> r == plain[..limit] + "...")
      && |r| <= limit + 3
  {
    var plain := Trim(BlankMarkup(content));
    if |plain| > limit then plain[..limit] + "..." else plain
  }

  /** No markup character survives into the preview. */
  lemma PreviewHasNoMarkup(content: string, limit: nat)
    ensures var r := PreviewContent(content, limit);
      forall i :: 0 <= i < |r| ==> !IsMarkup(r[i])
  {
    var b := BlankMarkup(content);
    assert forall i :: 0 <= i < |b| ==> !IsMarkup(b[i]) by {
      forall i | 0 <= i < |b| ensures !IsMarkup(b[i]) {
        assert b[i] == if IsMarkup(content[i]) then ' ' else content[i];
      }
    }
    TrimmedHasNoMarkup(b);
    var plain := Trim(b);
    if |plain| > limit {
      CutHasNoMarkup(plain, limit);
    }
  }

  /** Cutting a markup-free text and appending `...` leaves it markup-free. */
  lemma CutHasNoMarkup(plain: string, limit: nat)
    requires limit < |plain|
    requires forall i :: 0 <= i < |plain| ==> !IsMarkup(plain[i])
    ensures var r := plain[..limit] + "...";
      forall i :: 0 <= i < |r| ==> !IsMarkup(r[i])
  {
    var r := plain[..limit] + "...";
    forall i | 0 <= i < |r| ensures !IsMarkup(r[i]) {
      if i < limit {
        assert r[i] == plain[i];
      } else {
        assert r[i] == '.';
      }
    }
  }

  /** Trimming a markup-free text leaves it markup-free. */
  lemma TrimmedHasNoMarkup(b: string)
    requires forall i :: 0 <= i < |b| ==> !IsMarkup(b[i])
    ensures forall i :: 0 <= i < |Trim(b)| ==> !IsMarkup(Trim(b)[i])
  {
    var r := Trim(b);
    var k := |b| - |TrimStart(b)|;
    forall i | 0 <= i < |r| ensures !IsMarkup(r[i]) {
      assert r[i] == b[k + i];
    }
  }

  /** The notes after editing note `id`: every note with that id takes the form's fields and
      the update time `now`; every other note is unchanged. */
  function EditNotes(notes: seq<Note>, id: string, form: NoteForm, now: int): (r: seq<Note>)
    ensures |r| == |notes|
    ensures forall i :: 0 <= i < |notes| ==>
      r[i] == if notes[i].id == id
              then notes[i].(title := form.title, content := form.content, category := form.category,
                             tags := form.tags, updatedAt := now)
              else notes[i]
  {
    seq(|notes|, i requires 0 <= i < |notes| =>
      if notes[i].id == id
      then notes[i].(title := form.title, content := form.content, category := form.category,
                     tags := form.tags, updatedAt := now)
      else notes[i])
  }

  /** Editing an id no note has leaves the list as it is. */
  lemma EditAbsentId(notes: seq<Note>, id: string, form: NoteForm, now: int)
    requires forall i :: 0 <= i < |notes| ==> notes[i].id != id
    ensures EditNotes(notes, id, form, now) == notes
  {
  }

  /** The note the form creates at time `now` with id `id`: never pinned, the default colour,
      and no tenant or author. */
  function NewNote(form: NoteForm, id: string, now: int): (n: Note)
    ensures n.id == id && n.createdAt == now && n.updatedAt == now && !n.isPinned && n.color == "#f5f5f5"
    ensures n.title == form.title && n.content == form.content && n.category == form.category && n.tags == form.tags
    ensures n.tenantSlug.None? && n.tenantId.None?
  {
    Note(id, form.title, form.content, form.category, form.tags, now, now, false, "#f5f5f5",
      None, None, None, None, None)
  }

  /** The notes without those whose id is `id`, the rest in their order. */
  function DeleteNotes(notes: seq<Note>, id: string): (r: seq<Note>)
    ensures forall n :: n in r <==> n in notes && n.id != id
    ensures forall n :: multiset(r)[n] == if n.id != id then multiset(notes)[n] else 0
    ensures Subsequence(r, notes)
  {
    FilterSubsequence(notes, (n: Note) => n.id != id);
    FilterCounts(notes, (n: Note) => n.id != id);
    Filter(notes, (n: Note) => n.id != id)
  }

  /** Deleting a note just created, under an id no earlier note has, gives back the earlier
      notes. */
  lemma DeleteCreated(notes: seq<Note>, form: NoteForm, id: string, now: int)
    requires forall i :: 0 <= i < |notes| ==> notes[i].id != id
    ensures DeleteNotes([NewNote(form, id, now)] + notes, id) == notes
  {
    var p := (n: Note) => n.id != id;
    FilterAppend([NewNote(form, id, now)], notes, p);
    FilterSingleton(NewNote(form, id, now), p);
    FilterKeepsAll(notes, p);
  }

  /** The notes with the pin of every note with id `id` flipped. */
  function TogglePinned(notes: seq<Note>, id: string): (r: seq<Note>)
    ensures |r| == |notes|
    ensures forall i :: 0 <= i < |notes| ==>
      r[i] == if notes[i].id == id then notes[i].(isPinned := !notes[i].isPinned) else notes[i]
  {
    seq(|notes|, i requires 0 <= i < |notes| =>
      if notes[i].id == id then notes[i].(isPinned := !notes[i].isPinned) else notes[i])
  }

  /** Toggling the same pin twice restores the list. */
  lemma TogglePinTwice(notes: seq<Note>, id: string)
    ensures TogglePinned(TogglePinned(notes, id), id) == notes
  {
    var once := TogglePinned(notes, id);
    var twice := TogglePinned(once, id);
    forall i | 0 <= i < |notes| ensures twice[i] == notes[i] {
      assert once[i].id == notes[i].id;
    }
  }

  /** The tags after adding `tag`: appended when it is non-empty and not present yet. */
  function AddTag(tags: seq<string>, tag: string): (r: seq<string>)
    ensures tag != "" && tag !in tags ==> r == tags + [tag]
    ensures tag == "" || tag in tags ==> r == tags
  {
    if tag != "" && tag !in tags then tags + [tag] else tags
  }

  /** Adding a tag keeps the tags duplicate-free, and afterwards every non-empty tag is present. */
  lemma AddTagNoDup(tags: seq<string>, tag: string)
    requires NoDup(tags)
    ensures NoDup(AddTag(tags, tag))
    ensures tag != "" ==> tag in AddTag(tags, tag)
  {
    if tag != "" && tag !in tags {
      AppendFreshNoDup(tags, tag);
    }
  }

  /** The tags without any occurrence of `tag`, the rest in their order. */
  function RemoveTag(tags: seq<string>, tag: string): (r: seq<string>)
    ensures tag !in r
    ensures forall t :: t in r <==> t in tags && t != tag
    ensures forall t :: multiset(r)[t] == if t != tag then multiset(tags)[t] else 0
    ensures Subsequence(r, tags)
  {
    FilterSubsequence(tags, (t: string) => t != tag);
    FilterCounts(tags, (t: string) => t != tag);
    Filter(tags, (t: string) => t != tag)
  }

  /** Removing a tag keeps the tags duplicate-free. */
  lemma RemoveTagNoDup(tags: seq<string>, tag: string)
    requires NoDup(tags)
    ensures NoDup(RemoveTag(tags, tag))
  {
    FilterNoDup(tags, (t: string) => t != tag);
  }

  /** A fresh array holding `s`. */
  method FromSeq(s: seq<Note>) returns (a: array<Note>)
    ensures fresh(a) && a[..] == s
  {
    a := new Note[|s|](i requires 0 <= i < |s| => s[i]);
  }

  /** The page state: the notes array, the shared demo notes array, the dialog, the note being
      edited, the form and the tag being typed. */
  class Page {
    const demo: array<Note>
    var notes: array<Note>
    var open: bool
    var editing: Option<Note>
    var form: NoteForm
    var newTag: string

    /** The page mounts with the shared demo notes array as its notes and a closed dialog. */
    constructor (demo: array<Note>)
      ensures this.demo == demo && notes == demo
      ensures !open && editing.None? && form == EmptyForm && newTag == ""
    {
      this.demo := demo;
      notes := demo;
      open := false;
      editing := None;
      form := EmptyForm;
      newTag := "";
    }

    /** `filteredAndSortedNotes`. Without a query and with `'All'` the page's own notes array
        is itself sorted and returned (and, while it is the shared demo array, the demo notes
        are reordered with it); otherwise a fresh array is sorted and nothing else changes. */
    method Show(query: string, category: string, sortBy: string, titleLe: (string, string) -> bool)
      returns (r: array<Note>)
      modifies notes
      ensures r[..] == Displayed(old(notes[..]), old(demo[..]), query, category, sortBy, titleLe)
      ensures query == "" && category == "All" ==> r == notes
      ensures !(query == "" && category == "All") ==> fresh(r) && notes[..] == old(notes[..])
    {
      var le := NoteLe(sortBy, titleLe);
      if query == "" && category == "All" {
        SortInPlace(notes, le);
        r := notes;
      } else {
        r := FromSeq(DisplayedSource(notes[..], demo[..], query, category));
        SortInPlace(r, le);
      }
    }

    /** `handleOpen(note)`: the dialog opens on the note's fields, or on an empty form. */
    method Open(note: Option<Note>)
      modifies this
      ensures open && editing == note
      ensures form == if note.Some? then FormOf(note.value) else EmptyForm
      ensures notes == old(notes) && newTag == old(newTag)
    {
      editing := note;
      form := if note.Some? then FormOf(note.value) else EmptyForm;
      open := true;
    }

    /** `handleClose()`: the dialog closes and the form empties. */
    method Close()
      modifies this
      ensures !open && editing.None? && form == EmptyForm
      ensures notes == old(notes) && newTag == old(newTag)
    {
      open := false;
      editing := None;
      form := EmptyForm;
    }

    /** `handleSubmit()` at time `now` with `id` the decimal of the creation instant: the note
        being edited is merged with the form, or a new note is put in front of the others
        (with no quota check); then the dialog closes. */
    method Submit(now: int, idMs: int)
      modifies this
      ensures editing.None? && !open && form == EmptyForm && newTag == old(newTag)
      ensures fresh(notes)
      ensures old(editing).Some? ==> notes[..] == EditNotes(old(notes[..]), old(editing).value.id, old(form), now)
      ensures old(editing).None? ==> notes[..] == [NewNote(old(form), IntToDecimal(idMs), now)] + old(notes[..])
    {
      if editing.Some? {
        notes := FromSeq(EditNotes(notes[..], editing.value.id, form, now));
      } else {
        notes := FromSeq([NewNote(form, IntToDecimal(idMs), now)] + notes[..]);
      }
      Close();
    }

    /** `handleDelete(id)` with the answer `confirmed` to the confirmation dialog. */
    method Delete(id: string, confirmed: bool)
      modifies this
      ensures confirmed ==> fresh(notes) && notes[..] == DeleteNotes(old(notes[..]), id)
      ensures !confirmed ==> notes == old(notes)
      ensures open == old(open) && editing == old(editing) && form == old(form) && newTag == old(newTag)
    {
      if confirmed {
        notes := FromSeq(DeleteNotes(notes[..], id));
      }
    }

    /** `handleTogglePin(note)`. */
    method TogglePin(note: Note)
      modifies this
      ensures fresh(notes) && notes[..] == TogglePinned(old(notes[..]), note.id)
      ensures open == old(open) && editing == old(editing) && form == old(form) && newTag == old(newTag)
    {
      notes := FromSeq(TogglePinned(notes[..], note.id));
    }

    /** Typing in the tag field. */
    method TypeTag(t: string)
      modifies this
      ensures newTag == t
      ensures notes == old(notes) && open == old(open) && editing == old(editing) && form == old(form)
    {
      newTag := t;
    }

    /** `handleAddTag()`: a non-empty tag not yet in the form is appended and the field cleared;
        otherwise nothing changes. Duplicate-free tags stay duplicate-free. */
    method AddTypedTag()
      modifies this
      ensures form == old(form).(tags := AddTag(old(form).tags, old(newTag)))
      ensures newTag == if old(newTag) != "" && old(newTag) !in old(form).tags then "" else old(newTag)
      ensures NoDup(old(form).tags) ==> NoDup(form.tags)
      ensures notes == old(notes) && open == old(open) && editing == old(editing)
    {
      if NoDup(form.tags) {
        AddTagNoDup(form.tags, newTag);
      }
      if newTag != "" && newTag !in form.tags {
        form := form.(tags := form.tags + [newTag]);
        newTag := "";
      }
    }

    /** `handleRemoveTag(tag)`. */
    method RemoveFormTag(tag: string)
      modifies this
      ensures form == old(form).(tags := RemoveTag(old(form).tags, tag))
      ensures NoDup(old(form).tags) ==> NoDup(form.tags)
      ensures notes == old(notes) && open == old(open) && editing == old(editing) && newTag == old(newTag)
    {
      if NoDup(form.tags) {
        RemoveTagNoDup(form.tags, tag);
      }
      form := form.(tags := RemoveTag(form.tags, tag));
    }
  }
}
