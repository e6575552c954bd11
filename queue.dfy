/** src/queue.js: the play queue of one guild. Manual requests (songs a user asked for)
    queue ahead of the automatic trending songs; getNext skips automatic songs the guild
    heard lately; a capped history lets the bot step back. The database is the settings
    store plus the set of recently played YouTube ids (isRecentlyPlayed, given as a
    parameter); Date.now is the parameter `now`; Math.random is the oracle `pick`. */
module Queue {
  import opened Optional
  import opened Songs
  import Helpers
  import Store

  /** The history keeps the 50 most recent songs. */
  const HistoryLimit: nat := 50

  /** `this.guildId` as a condition: set and not the empty string. */
  predicate GuildSet(guildId: Option<string>)
  {
    guildId.Some? && guildId.value != ""
  }

  /** The record addSong stores: the input with the time it was added, the manual flag taken
      from `priority` (whatever flag the input carried) and an id made of the YouTube id and
      the time. */
  function Stamp(song: Song, priority: bool, now: nat): (r: Song)
    ensures r.isManualRequest == priority
    ensures r.addedAt == now
    ensures r.id == song.youtubeId + "_" + Helpers.NatToString(now)
    ensures r.(isManualRequest := song.isManualRequest, addedAt := song.addedAt, id := song.id) == song
  {
    song.(addedAt := now, isManualRequest := priority,
          id := song.youtubeId + "_" + Helpers.NatToString(now))
  }

  /** f applied to every element, in order. */
  function MapSeq<T, U>(s: seq<T>, f: T -> U): seq<U>
  {
    seq(|s|, i requires 0 <= i < |s| => f(s[i]))
  }

  /** Mapping a sequence respects the multiset of its elements. */
  lemma {:induction false} MapSeqPermutes<T, U>(a: seq<T>, b: seq<T>, f: T -> U)
    requires multiset(a) == multiset(b)
    ensures multiset(MapSeq(a, f)) == multiset(MapSeq(b, f))
    decreases |a|
  {
    if a != [] {
      var a', x := a[..|a| - 1], a[|a| - 1];
      assert a == a' + [x];
      assert x in multiset(b);
      var j :| 0 <= j < |b| && b[j] == x;
      var b' := b[..j] + b[j + 1..];
      RemoveAt(b, j);
      Cancel(multiset(a'), multiset(b'), x);
      MapSeqPermutes(a', b', f);
      MapSeqRemove(b, j, f);
      assert MapSeq(a, f) == MapSeq(a', f) + [f(x)];
    }
  }

  lemma MapSeqRemove<T, U>(b: seq<T>, j: nat, f: T -> U)
    requires j < |b|
    ensures multiset(MapSeq(b, f)) == multiset(MapSeq(b[..j] + b[j + 1..], f)) + multiset{f(b[j])}
  {
    var mb := MapSeq(b, f);
    RemoveAt(mb, j);
    var l, r := mb[..j] + mb[j + 1..], MapSeq(b[..j] + b[j + 1..], f);
    assert |l| == |r|;
    forall i | 0 <= i < |l| ensures l[i] == r[i] {
      if i < j {
        assert (b[..j] + b[j + 1..])[i] == b[i];
      } else {
        assert (b[..j] + b[j + 1..])[i] == b[i + 1];
      }
    }
    assert l == r && mb[j] == f(b[j]);
  }

  lemma RemoveAt<T>(b: seq<T>, j: nat)
    requires j < |b|
    ensures multiset(b) == multiset(b[..j] + b[j + 1..]) + multiset{b[j]}
  {
    assert b == b[..j] + [b[j]] + b[j + 1..];
  }

  lemma Cancel<T>(m: multiset<T>, n: multiset<T>, x: T)
    requires m + multiset{x} == n + multiset{x}
    ensures m == n
  {
    assert m == (m + multiset{x}) - multiset{x};
    assert n == (n + multiset{x}) - multiset{x};
  }

  /** The records a run of addSong calls stores, in call order. */
  function StampAll(songs: seq<Song>, priority: bool, now: nat): seq<Song>
  {
    MapSeq(songs, s => Stamp(s, priority, now))
  }

  /** The length of the leading run of manual requests: where a priority song goes. */
  function LeadingManual(q: seq<Song>): (k: nat)
    ensures k <= |q|
    ensures forall i :: 0 <= i < k ==> q[i].isManualRequest
    ensures k < |q| ==> !q[k].isManualRequest
  {
    if q == [] || !q[0].isManualRequest then 0 else 1 + LeadingManual(q[1..])
  }

  /** The three properties of LeadingManual pin it down. */
  lemma LeadingManualUnique(q: seq<Song>, k: nat)
    requires k <= |q|
    requires forall i :: 0 <= i < k ==> q[i].isManualRequest
    requires k < |q| ==> !q[k].isManualRequest
    ensures LeadingManual(q) == k
  {
  }

  /** The queue after addSong(song, true): the new record goes right after the manual run. */
  function AddPriority(q: seq<Song>, s: Song): seq<Song>
  {
    q[..LeadingManual(q)] + [s] + q[LeadingManual(q)..]
  }

  /** A priority add makes the manual run one longer, with the new record at its end. */
  lemma LeadingManualGrows(q: seq<Song>, s: Song)
    requires s.isManualRequest
    ensures var k, q' := LeadingManual(q), AddPriority(q, s);
            && LeadingManual(q') == k + 1
            && q'[..k + 1] == q[..k] + [s]
            && q'[k + 1..] == q[k..]
  {
    var k := LeadingManual(q);
    var q' := AddPriority(q, s);
    assert forall i :: 0 <= i < k ==> q'[i] == q[i];
    assert q'[k] == s;
    assert k + 1 < |q'| ==> q'[k + 1] == q[k];
    LeadingManualUnique(q', k + 1);
    assert q'[..k + 1] == q[..k] + [s];
    assert q'[k + 1..] == q[k..];
  }

  /** The queue after a run of priority adds. */
  function AddAllPriority(q: seq<Song>, songs: seq<Song>): seq<Song>
    decreases |songs|
  {
    if songs == [] then q else AddAllPriority(AddPriority(q, songs[0]), songs[1..])
  }

  /** One priority add ahead of a run laid out by the later adds: the run then starts with
      the new record. */
  lemma PriorityAddInFront(q: seq<Song>, s: Song, rest: seq<Song>, after: seq<Song>)
    requires s.isManualRequest
    requires var q' := AddPriority(q, s);
             after == q'[..LeadingManual(q')] + rest + q'[LeadingManual(q')..]
    ensures after == q[..LeadingManual(q)] + ([s] + rest) + q[LeadingManual(q)..]
  {
    LeadingManualGrows(q, s);
  }

  /** Successive priority requests keep their call order: they sit together, after the manual
      requests that were already waiting and ahead of every automatic song. */
  lemma {:induction false} PriorityAddsKeepCallOrder(q: seq<Song>, songs: seq<Song>)
    requires forall i :: 0 <= i < |songs| ==> songs[i].isManualRequest
    ensures AddAllPriority(q, songs) == q[..LeadingManual(q)] + songs + q[LeadingManual(q)..]
    decreases |songs|
  {
    if songs != [] {
      var s, rest := songs[0], songs[1..];
      PriorityAddsKeepCallOrder(AddPriority(q, s), rest);
      PriorityAddInFront(q, s, rest, AddAllPriority(q, songs));
      assert [s] + rest == songs;
    }
  }

  /** The test getNext uses to pass over a song: an automatic song with a YouTube id that the
      guild played lately. */
  predicate Skippable(song: Song, guildId: Option<string>, recent: set<string>)
  {
    song.youtubeId != "" && GuildSet(guildId) && song.youtubeId in recent && !song.isManualRequest
  }

  /** The position of the first song getNext does not pass over (|q| when there is none). */
  function FirstPlayable(q: seq<Song>, guildId: Option<string>, recent: set<string>): (k: nat)
    ensures k <= |q|
    ensures forall j :: 0 <= j < k ==> Skippable(q[j], guildId, recent)
    ensures k < |q| ==> !Skippable(q[k], guildId, recent)
  {
    if q == [] || !Skippable(q[0], guildId, recent) then 0
    else 1 + FirstPlayable(q[1..], guildId, recent)
  }

  /** The history after the current song moves into it: newest first, and when it outgrows
      the limit the oldest entry is dropped. */
  function PushHistory(history: seq<Song>, current: Option<Song>): seq<Song>
  {
    if current.None? then history
    else
      var h := [current.value] + history;
      if |h| > HistoryLimit then h[..|h| - 1] else h
  }

  /** What the queue holds: waiting songs, the song playing, the history. */
  datatype Snapshot = Snapshot(queue: seq<Song>, current: Option<Song>, history: seq<Song>)

  /** A song handed out (or null) and the state afterwards. */
  datatype Step = Step(song: Option<Song>, after: Snapshot)

  /** getNext: passes over skippable songs, then plays the first song left; the song that was
      playing goes to the history. When every song is passed over the queue ends up empty and
      nothing else changes. */
  function Next(st: Snapshot, guildId: Option<string>, recent: set<string>): Step
  {
    var k := FirstPlayable(st.queue, guildId, recent);
    if k == |st.queue| then Step(None, st.(queue := []))
    else Step(Some(st.queue[k]), Snapshot(st.queue[k + 1..], Some(st.queue[k]), PushHistory(st.history, st.current)))
  }

  /** getPrevious: the newest history entry plays again and the song that was playing goes
      back to the front of the queue. */
  function Previous(st: Snapshot): Step
  {
    if st.history == [] then Step(None, st)
    else
      var back := if st.current.Some? then [st.current.value] else [];
      Step(Some(st.history[0]), Snapshot(back + st.queue, Some(st.history[0]), st.history[1..]))
  }

  /** getNext never hands out a song it should pass over, and whatever it does hand out, the
      songs ahead of it are gone from the queue. */
  lemma NextNeverPlaysSkippable(st: Snapshot, guildId: Option<string>, recent: set<string>)
    ensures var step := Next(st, guildId, recent);
            step.song.Some? ==>
              && !Skippable(step.song.value, guildId, recent)
              && step.after.current == step.song
              && step.song.value in st.queue
              && st.queue == st.queue[..|st.queue| - |step.after.queue| - 1] + [step.song.value] + step.after.queue
              && forall s :: s in st.queue[..|st.queue| - |step.after.queue| - 1] ==> Skippable(s, guildId, recent)
  {
    var k := FirstPlayable(st.queue, guildId, recent);
    if k < |st.queue| {
      assert st.queue == st.queue[..k] + [st.queue[k]] + st.queue[k + 1..];
    }
  }

  /** getNext returns null exactly when every waiting song would be passed over; then the
      queue is emptied and the current song and the history stay as they were. */
  lemma NextNullCase(st: Snapshot, guildId: Option<string>, recent: set<string>)
    ensures var step := Next(st, guildId, recent);
            (step.song.None? <==> forall s :: s in st.queue ==> Skippable(s, guildId, recent))
            && (step.song.None? ==> step.after == Snapshot([], st.current, st.history))
  {
    var k := FirstPlayable(st.queue, guildId, recent);
    if k < |st.queue| {
      assert st.queue[k] in st.queue;
    }
  }

  /** Neither getNext nor getPrevious lets the history outgrow its limit. */
  lemma HistoryStaysBounded(st: Snapshot, guildId: Option<string>, recent: set<string>)
    requires |st.history| <= HistoryLimit
    ensures |Next(st, guildId, recent).after.history| <= HistoryLimit
    ensures |Previous(st).after.history| <= HistoryLimit
  {
  }

  /** getPrevious undoes getNext: after stepping forward from a playing song with room in the
      history, stepping back restores the queue, the song and the history exactly. */
  lemma PreviousUndoesNext(st: Snapshot, guildId: Option<string>, recent: set<string>)
    requires st.current.Some?
    requires st.queue != [] && !Skippable(st.queue[0], guildId, recent)
    requires |st.history| < HistoryLimit
    ensures Previous(Next(st, guildId, recent).after) == Step(st.current, st)
  {
    assert FirstPlayable(st.queue, guildId, recent) == 0;
    assert [st.queue[0]] + st.queue[1..] == st.queue;
  }

  /** The songs of a queue that users asked for, in queue order. */
  function ManualOf(q: seq<Song>): (r: seq<Song>)
    ensures forall s :: s in r ==> s.isManualRequest
  {
    if q == [] then []
    else (if q[0].isManualRequest then [q[0]] else []) + ManualOf(q[1..])
  }

  /** The automatic songs of a queue, in queue order. */
  function AutoOf(q: seq<Song>): (r: seq<Song>)
    ensures forall s :: s in r ==> !s.isManualRequest
  {
    if q == [] then []
    else (if q[0].isManualRequest then [] else [q[0]]) + AutoOf(q[1..])
  }

  /** Every song of the queue is in exactly one of the two parts. */
  lemma {:induction false} PartsCoverQueue(q: seq<Song>)
    ensures multiset(ManualOf(q)) + multiset(AutoOf(q)) == multiset(q)
  {
    if q != [] {
      PartsCoverQueue(q[1..]);
      assert q == [q[0]] + q[1..];
    }
  }

  lemma {:induction false} ManualOfAppend(a: seq<Song>, b: seq<Song>)
    ensures ManualOf(a + b) == ManualOf(a) + ManualOf(b)
  {
    if a != [] {
      ManualOfAppend(a[1..], b);
      assert (a + b)[0] == a[0] && (a + b)[1..] == a[1..] + b;
      assert a + b != [];
      assert ManualOf(a + b) == (if a[0].isManualRequest then [a[0]] else []) + ManualOf(a[1..] + b);
      assert ManualOf(a) == (if a[0].isManualRequest then [a[0]] else []) + ManualOf(a[1..]);
    } else {
      assert a + b == b;
    }
  }

  lemma {:induction false} ManualOfAllManual(q: seq<Song>)
    requires forall s :: s in q ==> s.isManualRequest
    ensures ManualOf(q) == q
  {
    if q != [] {
      ManualOfAllManual(q[1..]);
    }
  }

  lemma {:induction false} ManualOfNoManual(q: seq<Song>)
    requires forall s :: s in q ==> !s.isManualRequest
    ensures ManualOf(q) == []
  {
    if q != [] {
      ManualOfNoManual(q[1..]);
    }
  }

  /** shuffle: the manual requests in their order, then the automatic songs shuffled. */
  function ShuffleQueue(q: seq<Song>, pick: Helpers.Random): seq<Song>
  {
    ManualOf(q) + Helpers.Shuffled(AutoOf(q), pick)
  }

  /** Shuffling keeps every song, puts all manual requests in front, keeps their order and
      leaves only automatic songs behind them. */
  lemma ShuffleQueueLayout(q: seq<Song>, pick: Helpers.Random)
    ensures var r := ShuffleQueue(q, pick);
            && multiset(r) == multiset(q)
            && r[..|ManualOf(q)|] == ManualOf(q)
            && ManualOf(r) == ManualOf(q)
            && (forall i :: 0 <= i < |ManualOf(q)| ==> r[i].isManualRequest)
            && (forall i :: |ManualOf(q)| <= i < |r| ==> !r[i].isManualRequest)
  {
    var m, a := ManualOf(q), AutoOf(q);
    var sa := Helpers.Shuffled(a, pick);
    PartsCoverQueue(q);
    Helpers.ShuffledPermutes(a, pick);
    forall s | s in sa ensures !s.isManualRequest {
      Helpers.ShuffledMembers(a, pick, s);
    }
    ManualOfAppend(m, sa);
    ManualOfAllManual(m);
    ManualOfNoManual(sa);
    var r := m + sa;
    assert r[..|m|] == m;
    forall i | |m| <= i < |r| ensures !r[i].isManualRequest {
      assert r[i] == sa[i - |m|];
      assert r[i] in sa;
    }
    forall i | 0 <= i < |m| ensures r[i].isManualRequest {
      assert r[i] in m;
    }
  }

  /** getTotalDuration: the sum of the durations of the waiting songs. */
  function SumDurations(q: seq<Song>): nat
  {
    if q == [] then 0 else q[0].duration + SumDurations(q[1..])
  }

  lemma {:induction false} SumDurationsAppend(a: seq<Song>, b: seq<Song>)
    ensures SumDurations(a + b) == SumDurations(a) + SumDurations(b)
  {
    if a != [] {
      SumDurationsAppend(a[1..], b);
      assert (a + b)[0] == a[0] && (a + b)[1..] == a[1..] + b;
      assert a + b != [];
      assert SumDurations(a + b) == a[0].duration + SumDurations(a[1..] + b);
    } else {
      assert a + b == b;
    }
  }

  /** Adding a song anywhere adds its duration to the total, and removing one takes it off. */
  lemma SumDurationsInsert(q: seq<Song>, k: nat, s: Song)
    requires k <= |q|
    ensures SumDurations(q[..k] + [s] + q[k..]) == SumDurations(q) + s.duration
  {
    var a, b := q[..k], q[k..];
    SumDurationsAppend(a + [s], b);
    SumDurationsAppend(a, [s]);
    SumDurationsAppend(a, b);
    assert a + b == q;
    assert SumDurations([s]) == s.duration + SumDurations([]);
  }

  class MusicQueue {
    var queue: seq<Song>
    var currentSong: Option<Song>
    var history: seq<Song>
    var shuffleMode: bool
    var guildId: Option<string>
    const db: Store.SettingsStore

    /** The history never holds more than HistoryLimit songs. */
    ghost predicate Valid()
      reads this
    {
      |history| <= HistoryLimit
    }

    function State(): Snapshot
      reads this
    {
      Snapshot(queue, currentSong, history)
    }

    /** A new queue: empty, nothing playing, shuffle mode from the configuration. */
    constructor (db: Store.SettingsStore, shuffleDefault: bool)
      ensures Valid() && this.db == db
      ensures queue == [] && currentSong == None && history == []
      ensures shuffleMode == shuffleDefault && guildId == None
    {
      this.db := db;
      queue := [];
      currentSong := None;
      history := [];
      shuffleMode := shuffleDefault;
      guildId := None;
    }

    /** setGuildId: remembers the guild and takes the shuffle mode from its stored settings. */
    method SetGuildId(id: string)
      requires Valid()
      modifies this, db
      ensures Valid() && guildId == Some(id)
      ensures db.rows == if id in old(db.rows) then old(db.rows) else old(db.rows)[id := Store.DefaultSettings]
      ensures shuffleMode <==> db.rows[id].shuffleMode == 1
      ensures State() == old(State())
    {
      guildId := Some(id);
      var settings := db.GetSettings(id);
      shuffleMode := settings.shuffleMode == 1;
    }

    /** addSong: a priority song goes after the manual requests already waiting, any other
        song at the end. Returns the stored record. */
    method AddSong(song: Song, priority: bool, now: nat) returns (added: Song)
      requires Valid()
      modifies this
      ensures Valid() && added == Stamp(song, priority, now)
      ensures priority ==> queue == AddPriority(old(queue), added)
      ensures !priority ==> queue == old(queue) + [added]
      ensures currentSong == old(currentSong) && history == old(history)
      ensures shuffleMode == old(shuffleMode) && guildId == old(guildId)
    {
      added := Stamp(song, priority, now);
      if priority {
        var insertIndex := 0;
        for i := 0 to |queue|
          invariant insertIndex == i
          invariant forall j :: 0 <= j < i ==> queue[j].isManualRequest
        {
          if queue[i].isManualRequest {
            insertIndex := i + 1;
          } else {
            break;
          }
        }
        LeadingManualUnique(queue, insertIndex);
        queue := queue[..insertIndex] + [added] + queue[insertIndex..];
      } else {
        queue := queue + [added];
      }
    }

    /** addSongs: appends the songs as automatic songs, in the given order or shuffled. */
    method AddSongs(songs: seq<Song>, shuffle: bool, pick: Helpers.Random, now: nat)
      requires Valid()
      modifies this
      ensures Valid()
      ensures queue == old(queue) + StampAll(if shuffle then Helpers.Shuffled(songs, pick) else songs, false, now)
      ensures multiset(queue[|old(queue)|..]) == multiset(StampAll(songs, false, now))
      ensures forall i :: |old(queue)| <= i < |queue| ==> !queue[i].isManualRequest
      ensures currentSong == old(currentSong) && history == old(history)
      ensures shuffleMode == old(shuffleMode) && guildId == old(guildId)
    {
      var toAdd := songs;
      if shuffle {
        toAdd := Helpers.ShuffleArray(songs, pick);
      }
      ghost var start := queue;
      for k := 0 to |toAdd|
        invariant Valid()
        invariant queue == start + StampAll(toAdd[..k], false, now)
        invariant currentSong == old(currentSong) && history == old(history)
        invariant shuffleMode == old(shuffleMode) && guildId == old(guildId)
      {
        var _ := AddSong(toAdd[k], false, now);
        assert toAdd[..k + 1] == toAdd[..k] + [toAdd[k]];
      }
      assert toAdd[..|toAdd|] == toAdd;
      assert queue[|start|..] == StampAll(toAdd, false, now);
      if shuffle {
        Helpers.ShuffledPermutes(songs, pick);
      }
      MapSeqPermutes(toAdd, songs, s => Stamp(s, false, now));
    }

    /** getNext, checked against Next. */
    method GetNext(recent: set<string>) returns (song: Option<Song>)
      requires Valid()
      modifies this
      ensures Valid()
      ensures Step(song, State()) == Next(old(State()), guildId, recent)
      ensures shuffleMode == old(shuffleMode) && guildId == old(guildId)
    {
      ghost var st0 := State();
      ghost var skipped: nat := 0;
      while |queue| > 0
        invariant skipped <= |st0.queue| && queue == st0.queue[skipped..]
        invariant forall j :: 0 <= j < skipped ==> Skippable(st0.queue[j], guildId, recent)
        invariant currentSong == st0.current && history == st0.history
        invariant shuffleMode == old(shuffleMode) && guildId == old(guildId)
        decreases |queue|
      {
        var nextSong := queue[0];
        queue := queue[1..];

        if nextSong.youtubeId != "" && GuildSet(guildId) && nextSong.youtubeId in recent && !nextSong.isManualRequest {
          skipped := skipped + 1;
          continue;
        }
        FirstPlayableAt(st0.queue, guildId, recent, skipped);
        assert queue == st0.queue[skipped + 1..] && nextSong == st0.queue[skipped];

        if currentSong.Some? {
          history := [currentSong.value] + history;
          if |history| > HistoryLimit {
            history := history[..|history| - 1];
          }
        }
        assert history == PushHistory(st0.history, st0.current);
        currentSong := Some(nextSong);
        return currentSong;
      }
      FirstPlayableAt(st0.queue, guildId, recent, skipped);
      return None;
    }

    /** getPrevious, checked against Previous. */
    method GetPrevious() returns (song: Option<Song>)
      requires Valid()
      modifies this
      ensures Valid()
      ensures Step(song, State()) == Previous(old(State()))
      ensures shuffleMode == old(shuffleMode) && guildId == old(guildId)
    {
      if |history| == 0 {
        return None;
      }
      if currentSong.Some? {
        queue := [currentSong.value] + queue;
      }
      currentSong := Some(history[0]);
      history := history[1..];
      return currentSong;
    }

    /** getTotalDuration. */
    function TotalDuration(): nat
      reads this
    {
      SumDurations(queue)
    }

    /** peek: the first `count` waiting songs (JavaScript slice, so a negative count counts
        from the end). */
    function Peek(count: int): (r: seq<Song>)
      reads this
      ensures r <= queue
      ensures 0 <= count ==> |r| == if count < |queue| then count else |queue|
    {
      queue[..Helpers.SliceEnd(|queue|, count)]
    }

    /** isEmpty. */
    predicate IsEmpty()
      reads this
    {
      |queue| == 0
    }

    /** removeSong: takes out the song at a valid index and returns it; otherwise null. */
    method RemoveSong(index: int) returns (removed: Option<Song>)
      requires Valid()
      modifies this
      ensures Valid()
      ensures 0 <= index < |old(queue)| ==>
                removed == Some(old(queue)[index]) && queue == old(queue)[..index] + old(queue)[index + 1..]
      ensures !(0 <= index < |old(queue)|) ==> removed == None && queue == old(queue)
      ensures currentSong == old(currentSong) && history == old(history)
      ensures shuffleMode == old(shuffleMode) && guildId == old(guildId)
    {
      if 0 <= index < |queue| {
        removed := Some(queue[index]);
        queue := queue[..index] + queue[index + 1..];
      } else {
        removed := None;
      }
    }

    /** clearQueue: drops the waiting songs only. */
    method ClearQueue()
      requires Valid()
      modifies this
      ensures Valid() && queue == []
      ensures currentSong == old(currentSong) && history == old(history)
      ensures shuffleMode == old(shuffleMode) && guildId == old(guildId)
    {
      queue := [];
    }

    /** shuffle, checked against ShuffleQueue. */
    method Shuffle(pick: Helpers.Random)
      requires Valid()
      modifies this
      ensures Valid() && queue == ShuffleQueue(old(queue), pick)
      ensures currentSong == old(currentSong) && history == old(history)
      ensures shuffleMode == old(shuffleMode) && guildId == old(guildId)
    {
      var manualRequests := ManualOf(queue);
      var autoSongs := AutoOf(queue);
      var shuffledAuto := Helpers.ShuffleArray(autoSongs, pick);
      queue := manualRequests + shuffledAuto;
    }

    /** toggleShuffle: flips the mode, shuffles only when it turns on, stores the new mode
        as 1 or 0 for a known guild and returns it. */
    method ToggleShuffle(pick: Helpers.Random) returns (mode: bool)
      requires Valid()
      modifies this, db
      ensures Valid()
      ensures mode == shuffleMode && shuffleMode == !old(shuffleMode)
      ensures queue == if mode then ShuffleQueue(old(queue), pick) else old(queue)
      ensures GuildSet(guildId) ==>
                db.rows == old(db.rows)[guildId.value := Store.Apply(
                  if guildId.value in old(db.rows) then old(db.rows)[guildId.value] else Store.DefaultSettings,
                  Store.ShuffleMode(if mode then 1 else 0))]
      ensures !GuildSet(guildId) ==> db.rows == old(db.rows)
      ensures currentSong == old(currentSong) && history == old(history) && guildId == old(guildId)
    {
      shuffleMode := !shuffleMode;
      if shuffleMode {
        Shuffle(pick);
      }
      if GuildSet(guildId) {
        db.UpdateSetting(guildId.value, Store.ShuffleMode(if shuffleMode then 1 else 0));
      }
      mode := shuffleMode;
    }

    /** The write playNext makes through the song object getNext returned, which is the
        queue's current song: the search answer fills in its source. */
    method FillCurrent(hit: YouTubeHit)
      requires Valid() && currentSong.Some?
      modifies this
      ensures Valid() && currentSong == Some(WithHit(old(currentSong).value, hit))
      ensures queue == old(queue) && history == old(history)
      ensures shuffleMode == old(shuffleMode) && guildId == old(guildId)
    {
      currentSong := Some(WithHit(currentSong.value, hit));
    }
  }

  /** FirstPlayable is the first position whose song is not passed over. */
  lemma FirstPlayableAt(q: seq<Song>, guildId: Option<string>, recent: set<string>, k: nat)
    requires k <= |q|
    requires forall j :: 0 <= j < k ==> Skippable(q[j], guildId, recent)
    requires k < |q| ==> !Skippable(q[k], guildId, recent)
    ensures FirstPlayable(q, guildId, recent) == k
  {
  }
}
