/** The archive: saving journal entries with their parsed tags, the history
    of completed quests (newest first) and the preview of long entries. */
module Archive {
  import opened Types
  import Seqs
  import Text
  import App
  import Progression

  // ---------------------------------------------------------------------------
  // Tags

  /** Each piece, trimmed. */
  function TrimAll(pieces: seq<string>): (r: seq<string>)
    ensures |r| == |pieces|
    ensures forall i :: 0 <= i < |pieces| ==> r[i] == Text.Trim(pieces[i])
  {
    seq(|pieces|, i requires 0 <= i < |pieces| => Text.Trim(pieces[i]))
  }

  /** `tags.split(',').map(t => t.trim()).filter(t => t)`. */
  function ParseTags(input: string): seq<string> {
    Seqs.Filter(TrimAll(Text.Split(input, ',')), (t: string) => t != "")
  }

  /** No tag is empty, starts or ends with white space, or holds a comma. */
  lemma ParseTagsShape(input: string)
    ensures forall t :: t in ParseTags(input) ==>
      t != "" && !Text.IsSpace(t[0]) && !Text.IsSpace(t[|t| - 1]) && ',' !in t
  {
    var pieces := Text.Split(input, ',');
    forall t | t in ParseTags(input)
      ensures t != "" && !Text.IsSpace(t[0]) && !Text.IsSpace(t[|t| - 1]) && ',' !in t
    {
      var p := PieceOf(pieces, t);
      assert ',' !in p;
    }
  }

  /** The tags are exactly the non-empty trimmed pieces between commas. */
  lemma ParseTagsMembers(input: string)
    ensures forall t :: t in ParseTags(input) <==>
      t != "" && exists p :: p in Text.Split(input, ',') && Text.Trim(p) == t
  {
    var pieces := Text.Split(input, ',');
    forall t | t in ParseTags(input)
      ensures exists p :: p in pieces && Text.Trim(p) == t
    {
      var p := PieceOf(pieces, t);
    }
    forall p | p in pieces
      ensures Text.Trim(p) in TrimAll(pieces)
    {
      var i :| 0 <= i < |pieces| && pieces[i] == p;
      assert TrimAll(pieces)[i] == Text.Trim(p);
    }
  }

  /** The piece a trimmed element came from. */
  lemma PieceOf(pieces: seq<string>, t: string) returns (p: string)
    requires t in TrimAll(pieces)
    ensures p in pieces && Text.Trim(p) == t
  {
    var trimmed := TrimAll(pieces);
    var i :| 0 <= i < |trimmed| && trimmed[i] == t;
    p := pieces[i];
  }

  /** A single tag without commas, surrounded by blanks, parses to itself trimmed. */
  lemma SingleTag(input: string)
    requires ',' !in input && Text.Trim(input) != ""
    ensures ParseTags(input) == [Text.Trim(input)]
  {
    NoSeparator(input, ',');
    var keep := (t: string) => t != "";
    assert TrimAll([input]) == [Text.Trim(input)];
    assert Seqs.Filter([Text.Trim(input)], keep)
        == [Text.Trim(input)] + Seqs.Filter([Text.Trim(input)][1..], keep);
  }

  lemma {:induction false} NoSeparator(s: string, sep: char)
    requires sep !in s
    ensures Text.Split(s, sep) == [s]
  {
    if s != [] {
      NoSeparator(s[1..], sep);
      assert [s[0]] + s[1..] == s;
    }
  }

  // ---------------------------------------------------------------------------
  // Saving an entry

  /** `saveEntry` together with the reward it triggers: a blank entry changes
      nothing; otherwise one entry is prepended and the hunter gains 20
      experience and one activity count for the day. */
  function EntrySaved(content: string, tags: string, s: App.AppState, id: Id, now: int, today: DateKey): App.AppState
    requires s.profile.maxExp >= 1
  {
    if Text.Trim(content) == "" then s
    else App.EntryRewarded(s.(journal := [JournalEntry(id, content, now, ParseTags(tags))] + s.journal), today)
  }

  /** A blank entry (only white space) is refused; any other adds exactly one
      entry in front with the text as typed and the parsed tags, rewards it
      exactly once, and leaves quests, habits and ledger alone. */
  lemma EntrySavedEffects(content: string, tags: string, s: App.AppState, id: Id, now: int, today: DateKey)
    requires s.profile.maxExp >= 1 && s.profile.exp >= 0
    ensures var r := EntrySaved(content, tags, s, id, now, today);
      && ((forall i :: 0 <= i < |content| ==> Text.IsSpace(content[i])) ==> r == s)
      && ((exists i :: 0 <= i < |content| && !Text.IsSpace(content[i])) ==>
            && |r.journal| == |s.journal| + 1 && r.journal[1..] == s.journal
            && r.journal[0] == JournalEntry(id, content, now, ParseTags(tags))
            && r.profile == Progression.RecordActivity(Progression.GainExp(s.profile, 20), today)
            && 0 <= r.profile.exp < r.profile.maxExp
            && r.quests == s.quests && r.habits == s.habits && r.transactions == s.transactions)
  {
    Progression.GainExpEffects(s.profile, 20);
  }

  /** The journal form's two fields. */
  class JournalForm {
    var content: string
    var tags: string

    constructor ()
      ensures content == "" && tags == ""
    {
      content := "";
      tags := "";
    }

    /** `saveEntry()`: the fields are cleared only when the entry is taken. */
    method SaveEntry(s: App.AppState, id: Id, now: int, today: DateKey) returns (r: App.AppState)
      requires s.profile.maxExp >= 1
      modifies this
      ensures r == EntrySaved(old(content), old(tags), s, id, now, today)
      ensures if Text.Trim(old(content)) == "" then content == old(content) && tags == old(tags)
              else content == "" && tags == ""
    {
      if Text.Trim(content) == "" {
        r := s;
        return;
      }
      var newEntry := JournalEntry(id, content, now, ParseTags(tags));
      r := s.(journal := [newEntry] + s.journal);
      content := "";
      tags := "";
      r := App.EntryRewarded(r, today);
    }
  }

  // ---------------------------------------------------------------------------
  // Completed quests

  predicate NewestFirst(qs: seq<Quest>) {
    forall i, j :: 0 <= i < j < |qs| ==> qs[i].createdAt >= qs[j].createdAt
  }

  /** Inserts a quest before the first one not newer than it. */
  function Insert(q: Quest, sorted: seq<Quest>): (r: seq<Quest>)
    requires NewestFirst(sorted)
    ensures NewestFirst(r)
    ensures multiset(r) == multiset(sorted) + multiset{q}
  {
    if sorted == [] || sorted[0].createdAt <= q.createdAt then [q] + sorted
    else
      var rest := Insert(q, sorted[1..]);
      InsertHead(q, sorted, rest);
      [sorted[0]] + rest
  }

  lemma InsertHead(q: Quest, sorted: seq<Quest>, rest: seq<Quest>)
    requires sorted != [] && NewestFirst(sorted) && q.createdAt < sorted[0].createdAt
    requires NewestFirst(rest) && multiset(rest) == multiset(sorted[1..]) + multiset{q}
    ensures NewestFirst([sorted[0]] + rest)
    ensures multiset([sorted[0]] + rest) == multiset(sorted) + multiset{q}
  {
    assert sorted == [sorted[0]] + sorted[1..];
    forall x | x in rest
      ensures x.createdAt <= sorted[0].createdAt
    {
      assert x in multiset(rest);
      if x != q {
        assert x in multiset(sorted[1..]);
        assert x in sorted[1..];
        var j :| 0 <= j < |sorted[1..]| && sorted[1..][j] == x;
        assert sorted[j + 1] == x;
      }
    }
    var r := [sorted[0]] + rest;
    forall i, j | 0 <= i < j < |r|
      ensures r[i].createdAt >= r[j].createdAt
    {
      if i == 0 {
        assert r[j] == rest[j - 1];
        assert r[j] in rest;
      } else {
        assert r[i] == rest[i - 1] && r[j] == rest[j - 1];
      }
    }
  }

  /** `sort((a, b) => b.createdAt - a.createdAt)`: newest first, same quests. */
  function SortNewestFirst(qs: seq<Quest>): (r: seq<Quest>)
    ensures NewestFirst(r)
    ensures multiset(r) == multiset(qs)
  {
    if qs == [] then []
    else
      assert qs == [qs[0]] + qs[1..];
      Insert(qs[0], SortNewestFirst(qs[1..]))
  }

  /** The quest history: exactly the completed quests, each as often as in
      the list, newest first. */
  function CompletedQuests(qs: seq<Quest>): (r: seq<Quest>)
    ensures NewestFirst(r)
    ensures forall q :: q in r <==> q in qs && q.completed
    ensures multiset(r) == multiset(Seqs.Filter(qs, (q: Quest) => q.completed))
  {
    var done := Seqs.Filter(qs, (q: Quest) => q.completed);
    var r := SortNewestFirst(done);
    assert forall q :: q in r <==> q in multiset(r);
    assert forall q :: q in done <==> q in multiset(done);
    r
  }

  // ---------------------------------------------------------------------------
  // Preview

  const PreviewLength := 120

  /** The collapsed view of an entry: whole up to 120 characters, else the
      first 120 followed by an ellipsis. */
  function Preview(content: string): (r: string)
    ensures |content| <= PreviewLength ==> r == content
    ensures |content| > PreviewLength ==> |r| == PreviewLength + 3 && r[PreviewLength..] == "..."
    ensures |r| <= PreviewLength + 3
    ensures |content| > PreviewLength ==> r[..PreviewLength] == content[..PreviewLength]
  {
    if |content| > PreviewLength then content[..PreviewLength] + "..." else content
  }
}
