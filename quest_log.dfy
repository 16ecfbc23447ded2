/** The quest log: creating and editing quests and habits from the modal
    form, the rank reward table, the weekday toggles of a routine, the filter
    deciding which quests a section shows today, and the end-of-day countdown. */
module QuestLog {
  import opened Types
  import Seqs
  import Progression
  import opened Millis

  // ---------------------------------------------------------------------------
  // Rewards

  datatype Reward = Reward(exp: int, gold: int)

  /** Experience and gold for a quest of each rank. */
  function RewardFor(rank: QuestRank): Reward {
    match rank
    case E => Reward(20, 10)
    case D => Reward(60, 40)
    case C => Reward(180, 120)
    case B => Reward(500, 350)
    case A => Reward(1200, 1000)
    case S => Reward(5000, 4000)
  }

  /** A higher rank always pays strictly more experience and strictly more
      gold, and every reward is positive. */
  lemma RewardMonotone(r1: QuestRank, r2: QuestRank)
    requires Progression.RankIndex(r1) < Progression.RankIndex(r2)
    ensures RewardFor(r1).exp < RewardFor(r2).exp && RewardFor(r1).gold < RewardFor(r2).gold
    ensures RewardFor(r1).exp > 0 && RewardFor(r1).gold > 0
  {
  }

  // ---------------------------------------------------------------------------
  // Weekday toggles

  /** `toggleDay(day)`: drop every occurrence of the day if present, else append it. */
  function Toggle(days: seq<int>, day: int): (r: seq<int>)
    ensures day in r <==> day !in days
    ensures forall d :: d != day ==> (d in r <==> d in days)
  {
    if day in days then Seqs.Filter(days, (d: int) => d != day) else days + [day]
  }

  predicate NoDuplicates(days: seq<int>) {
    forall i, j :: 0 <= i < j < |days| ==> days[i] != days[j]
  }

  /** Toggling a day twice restores the set of days, and on a list without
      repeats, where the day was absent, it restores the list itself. */
  lemma ToggleTwice(days: seq<int>, day: int)
    ensures forall d :: d in Toggle(Toggle(days, day), day) <==> d in days
    ensures day !in days ==> Toggle(Toggle(days, day), day) == days
  {
    if day !in days {
      var keep := (d: int) => d != day;
      Seqs.FilterConcat(days, [day], keep);
      Seqs.FilterAllKept(days, keep);
      assert Seqs.Filter([day], keep) == [];
    }
  }

  /** Toggling never introduces a repeated day. */
  lemma {:induction false} ToggleKeepsNoDuplicates(days: seq<int>, day: int)
    requires NoDuplicates(days)
    ensures NoDuplicates(Toggle(days, day))
  {
    if day in days {
      FilterKeepsNoDuplicates(days, (d: int) => d != day);
    }
  }

  lemma {:induction false} FilterKeepsNoDuplicates(days: seq<int>, keep: int -> bool)
    requires NoDuplicates(days)
    ensures NoDuplicates(Seqs.Filter(days, keep))
  {
    if days != [] {
      FilterKeepsNoDuplicates(days[1..], keep);
      var rest := Seqs.Filter(days[1..], keep);
      assert days[0] !in days[1..];
      assert days[0] !in rest;
    }
  }

  // ---------------------------------------------------------------------------
  // Saving

  /** Which modal is open: none, a quest modal of some type, or the habit modal. */
  datatype ModalType = NoModal | QuestModal(kind: QuestType) | HabitModal

  /** The form's values at the moment of saving. */
  datatype Form = Form(modalType: ModalType, editingQuestId: Option<Id>, title: string, desc: string,
                       scheduledDays: seq<int>, rank: QuestRank, habitLevel: HabitLevel)

  /** `if (editingQuestId)`: an id is being edited (the empty string counts as none). */
  predicate Editing(f: Form) {
    f.editingQuestId.Some? && f.editingQuestId.value != ""
  }

  /** A quest as the form edits it: new text, days, rank and the rank's rewards. */
  function ApplyEdit(q: Quest, f: Form): Quest {
    q.(title := f.title, description := f.desc, scheduledDays := Some(f.scheduledDays),
       rank := f.rank, rewardExp := RewardFor(f.rank).exp, rewardGold := RewardFor(f.rank).gold)
  }

  /** The edit applied to every quest whose id is being edited. */
  function EditQuests(qs: seq<Quest>, f: Form): (r: seq<Quest>)
    requires Editing(f)
    ensures |r| == |qs|
    ensures forall i :: 0 <= i < |qs| ==>
      r[i] == (if qs[i].id == f.editingQuestId.value then ApplyEdit(qs[i], f) else qs[i])
  {
    seq(|qs|, i requires 0 <= i < |qs| =>
      if qs[i].id == f.editingQuestId.value then ApplyEdit(qs[i], f) else qs[i])
  }

  /** The quest a save creates from a quest modal of type `kind`. */
  function NewQuest(f: Form, kind: QuestType, id: Id, now: int, today: DateKey): Quest {
    Quest(id, f.title, f.desc, kind, f.rank, RewardFor(f.rank).exp, RewardFor(f.rank).gold,
          false, now, today, kind == ROUTINE, kind == MAIN, Some(f.scheduledDays))
  }

  datatype Lists = Lists(quests: seq<Quest>, habits: seq<Habit>)

  /** `handleSaveQuest` on the lists: nothing without a title or a modal; the
      habit modal prepends a fresh habit; a quest modal edits the quest being
      edited or prepends a fresh quest. */
  function SaveLists(f: Form, l: Lists, freshId: Id, now: int, today: DateKey): Lists {
    if f.title == "" || f.modalType.NoModal? then l
    else if f.modalType.HabitModal? then
      l.(habits := [Habit(freshId, f.title, f.habitLevel, false, 0)] + l.habits)
    else if Editing(f) then l.(quests := EditQuests(l.quests, f))
    else l.(quests := [NewQuest(f, f.modalType.kind, freshId, now, today)] + l.quests)
  }

  /** What a save does to the lists, case by case: the no-op guard, a fresh
      unticked habit with no streak in front, an edit that touches only the
      edited quest's text, days, rank and rewards, or a fresh uncompleted quest
      in front whose routine and main flags follow its type. Each case changes
      only one of the two lists. */
  lemma SaveListsEffects(f: Form, l: Lists, freshId: Id, now: int, today: DateKey)
    ensures var r := SaveLists(f, l, freshId, now, today);
      && (f.title == "" || f.modalType.NoModal? ==> r == l)
      && (f.title != "" && f.modalType.HabitModal? ==>
            && r.quests == l.quests && |r.habits| == |l.habits| + 1 && r.habits[1..] == l.habits
            && r.habits[0].id == freshId && r.habits[0].title == f.title
            && r.habits[0].level == f.habitLevel
            && !r.habits[0].completedToday && r.habits[0].streak == 0)
      && (f.title != "" && f.modalType.QuestModal? && Editing(f) ==>
            && r.habits == l.habits && |r.quests| == |l.quests|
            && forall i :: 0 <= i < |l.quests| ==>
                 if l.quests[i].id == f.editingQuestId.value then
                   && r.quests[i].rewardExp == RewardFor(f.rank).exp
                   && r.quests[i].rewardGold == RewardFor(f.rank).gold
                   && r.quests[i] == l.quests[i].(title := f.title, description := f.desc,
                        scheduledDays := Some(f.scheduledDays), rank := f.rank,
                        rewardExp := r.quests[i].rewardExp, rewardGold := r.quests[i].rewardGold)
                 else r.quests[i] == l.quests[i])
      && (f.title != "" && f.modalType.QuestModal? && !Editing(f) ==>
            && r.habits == l.habits && |r.quests| == |l.quests| + 1 && r.quests[1..] == l.quests
            && var q := r.quests[0];
            && q == NewQuest(f, f.modalType.kind, freshId, now, today)
            && q.title == f.title && q.description == f.desc && q.scheduledDays == Some(f.scheduledDays)
            && q.id == freshId && q.kind == f.modalType.kind && !q.completed
            && (q.isRoutine <==> f.modalType.kind == ROUTINE) && (q.isMain <==> f.modalType.kind == MAIN)
            && q.rank == f.rank && q.rewardExp == RewardFor(f.rank).exp
            && q.rewardGold == RewardFor(f.rank).gold && q.targetDate == today && q.createdAt == now)
  {
  }

  /** The form after `resetForm()`; the habit tier is not reset. */
  function ResetForm(f: Form): Form {
    Form(NoModal, None, "", "", [1, 2, 3, 4, 5], E, f.habitLevel)
  }

  /** The form state of the quest log. */
  class QuestForm {
    var modalType: ModalType
    var editingQuestId: Option<Id>
    var title: string
    var desc: string
    var scheduledDays: seq<int>
    var rank: QuestRank
    var habitLevel: HabitLevel

    function Values(): Form
      reads this
    {
      Form(modalType, editingQuestId, title, desc, scheduledDays, rank, habitLevel)
    }

    constructor ()
      ensures Values() == Form(NoModal, None, "", "", [1, 2, 3, 4, 5], E, TierC)
    {
      modalType := NoModal;
      editingQuestId := None;
      title := "";
      desc := "";
      scheduledDays := [1, 2, 3, 4, 5];
      rank := E;
      habitLevel := TierC;
    }

    /** The add buttons: open a modal of a type. */
    method Open(m: ModalType)
      modifies this
      ensures Values() == old(Values()).(modalType := m)
    {
      modalType := m;
    }

    /** `toggleDay(day)`. */
    method ToggleDay(day: int)
      modifies this
      ensures Values() == old(Values()).(scheduledDays := Toggle(old(scheduledDays), day))
    {
      if day in scheduledDays {
        scheduledDays := Seqs.Filter(scheduledDays, (d: int) => d != day);
      } else {
        scheduledDays := scheduledDays + [day];
      }
    }

    /** `openEdit(q)`: load the quest into the form and open its modal. */
    method OpenEdit(q: Quest)
      modifies this
      ensures Values() == Form(QuestModal(q.kind), Some(q.id), q.title, q.description,
                               q.scheduledDays.GetOr([]), q.rank, old(habitLevel))
    {
      title := q.title;
      desc := q.description;
      rank := q.rank;
      scheduledDays := q.scheduledDays.GetOr([]);
      editingQuestId := Some(q.id);
      modalType := QuestModal(q.kind);
    }

    /** `resetForm()`. */
    method Reset()
      modifies this
      ensures Values() == ResetForm(old(Values()))
    {
      title := "";
      desc := "";
      scheduledDays := [1, 2, 3, 4, 5];
      rank := E;
      editingQuestId := None;
      modalType := NoModal;
    }

    /** `handleSaveQuest`: update the lists and reset the form, unless the
        guard stops it, in which case the form stays as it is too. The fresh
        id and the clock reading are inputs. */
    method Save(l: Lists, freshId: Id, now: int, today: DateKey) returns (r: Lists)
      modifies this
      ensures r == SaveLists(old(Values()), l, freshId, now, today)
      ensures Values() == if old(title) == "" || old(modalType).NoModal? then old(Values())
                          else ResetForm(old(Values()))
    {
      r := l;
      if title == "" || modalType.NoModal? {
        return;
      }
      if modalType.HabitModal? {
        var newHabit := Habit(freshId, title, habitLevel, false, 0);
        r := r.(habits := [newHabit] + r.habits);
      } else {
        var f := Values();
        if editingQuestId.Some? && editingQuestId.value != "" {
          r := r.(quests := EditQuests(r.quests, f));
        } else {
          r := r.(quests := [NewQuest(f, modalType.kind, freshId, now, today)] + r.quests);
        }
      }
      Reset();
    }
  }

  // ---------------------------------------------------------------------------
  // What each section shows

  /** The per-quest test of `filterCurrentQuests(kind)`: right type; a
      completed quest only on its target date; an open routine only on a
      scheduled weekday; any other open quest always. */
  predicate ShownToday(q: Quest, kind: QuestType, today: DateKey, weekday: int) {
    if q.kind != kind then false
    else if q.completed then q.targetDate == today
    else if kind == ROUTINE then q.scheduledDays.Some? && weekday in q.scheduledDays.value
    else true
  }

  /** `filterCurrentQuests(kind)`; `today` is the date key and `weekday` the
      local day of the week (0 = Sunday). */
  function CurrentQuests(qs: seq<Quest>, kind: QuestType, today: DateKey, weekday: int): (r: seq<Quest>)
    ensures |r| <= |qs|
    ensures forall q :: q in r <==>
      && q in qs && q.kind == kind
      && (q.completed ==> q.targetDate == today)
      && (!q.completed && kind == ROUTINE ==> q.scheduledDays.Some? && weekday in q.scheduledDays.value)
  {
    Seqs.Filter(qs, (q: Quest) => ShownToday(q, kind, today, weekday))
  }

  /** A quest just created from the modal of its type shows at the top of
      its section the same day, provided a routine is scheduled for that
      weekday; the rest of the section is unchanged below it. */
  lemma NewQuestShownFirst(f: Form, kind: QuestType, id: Id, now: int, today: DateKey, weekday: int,
                           qs: seq<Quest>)
    requires kind == ROUTINE ==> weekday in f.scheduledDays
    ensures CurrentQuests([NewQuest(f, kind, id, now, today)] + qs, kind, today, weekday)
         == [NewQuest(f, kind, id, now, today)] + CurrentQuests(qs, kind, today, weekday)
  {
    var q := NewQuest(f, kind, id, now, today);
    Seqs.FilterConcat([q], qs, (x: Quest) => ShownToday(x, kind, today, weekday));
    assert Seqs.Filter([q], (x: Quest) => ShownToday(x, kind, today, weekday)) == [q];
  }

  // ---------------------------------------------------------------------------
  // End-of-day countdown

  datatype Clock = Clock(h: int, m: int, s: int)

  /** The hours, minutes and seconds of the time left until the last
      millisecond of today (never negative, so a natural number here). */
  function DayCountdown(diff: nat): (c: Clock)
    ensures c.h >= 0 && 0 <= c.m < 60 && 0 <= c.s < 60
    ensures c.h * HourMs + c.m * MinuteMs + c.s * 1000 <= diff < c.h * HourMs + c.m * MinuteMs + c.s * 1000 + 1000
  {
    var c := Clock(diff / HourMs, (diff % HourMs) / MinuteMs, (diff % MinuteMs) / 1000);
    MinuteRemainder(diff);
    assert diff == c.h * HourMs + diff % HourMs;
    assert diff % HourMs == c.m * MinuteMs + diff % MinuteMs;
    assert diff % MinuteMs == c.s * 1000 + diff % 1000;
    c
  }
}
