/** Read_Eeprom_Request_Index, the 16-bit word in which the unit task and the
    application's tasks keep what is to be read and written.  The rest of the
    model sees the set of jobs whose bits are up. */
module FlagWord {
  import opened Layout
  import opened Link

  /** The mask of a job's bit; 0 for what has none. */
  function Mask(j: Job): bv16 {
    match j
    case ReadJob(Info) => 0x1
    case ReadJob(SettingPar) => 0x2
    case ReadJob(SetTemp) => 0x4
    case ReadJob(DayProg) => 0x8
    case ButtonJob(i) => if i == 0 then 0x10 else if i == 1 then 0x20 else if i == 2 then 0x40 else if i == 3 then 0x80
                         else if i == 4 then 0x100 else if i == 5 then 0x200 else 0
    case WriteJob(Info) => 0x800
    case WriteJob(SettingPar) => 0x1000
    case WriteJob(SetTemp) => 0x2000
    case WriteJob(DayProg) => 0x4000
    case WriteJob(HWSetting) => 0x8000
    case _ => 0
  }

  predicate HasBit(j: Job) { Mask(j) != 0 }

  predicate Up(w: bv16, j: Job) { HasBit(j) && w & Mask(j) == Mask(j) }

  /** The word shows just these jobs. */
  ghost predicate Shows(w: bv16, jobs: set<Job>) {
    forall j: Job {:trigger Up(w, j)} :: Up(w, j) <==> j in jobs
  }

  lemma ShowsUp(w: bv16, jobs: set<Job>, j: Job)
    requires Shows(w, jobs)
    ensures Up(w, j) <==> j in jobs
  {
  }

  predicate OneBit(m: bv16) {
    m != 0 && m & (m - 1) == 0
  }

  lemma MasksAreBits(j: Job)
    requires HasBit(j)
    ensures OneBit(Mask(j))
  {
  }

  /** No two jobs share a bit. */
  lemma MasksDiffer(i: Job, j: Job)
    requires HasBit(i) && Mask(i) == Mask(j)
    ensures i == j
  {
  }

  lemma OrBit(w: bv16, m: bv16, n: bv16)
    requires OneBit(m) && OneBit(n)
    ensures (w | m) & n == n <==> w & n == n || m == n
  {
  }

  lemma AndNotBit(w: bv16, m: bv16, n: bv16)
    requires OneBit(m) && OneBit(n)
    ensures (w & !m) & n == n <==> w & n == n && m != n
  {
  }

  lemma RaiseOne(w: bv16, i: Job, j: Job)
    requires HasBit(j)
    ensures Up(w | Mask(j), i) <==> Up(w, i) || i == j
  {
    if HasBit(i) {
      MasksAreBits(i);
      MasksAreBits(j);
      OrBit(w, Mask(j), Mask(i));
      if Mask(i) == Mask(j) { MasksDiffer(i, j); }
    }
  }

  lemma ClearOne(w: bv16, i: Job, j: Job, m: bv16)
    requires HasBit(j) && m == Mask(j)
    ensures Up(w & !m, i) <==> Up(w, i) && i != j
  {
    if HasBit(i) {
      MasksAreBits(i);
      MasksAreBits(j);
      AndNotBit(w, m, Mask(i));
      if m == Mask(i) { MasksDiffer(i, j); }
    }
  }

  /** Raising a bit adds its job. */
  lemma RaiseShows(w: bv16, jobs: set<Job>, j: Job)
    requires Shows(w, jobs) && HasBit(j)
    ensures Shows(w | Mask(j), jobs + {j})
  {
    forall i: Job
      ensures Up(w | Mask(j), i) <==> i in jobs + {j}
    {
      RaiseOne(w, i, j);
    }
  }

  /** Clearing a bit removes its job and no other. */
  lemma ClearShows(w: bv16, jobs: set<Job>, j: Job, m: bv16)
    requires Shows(w, jobs) && HasBit(j) && m == Mask(j)
    ensures Shows(w & !m, jobs - {j})
  {
    forall i: Job
      ensures Up(w & !m, i) <==> i in jobs - {j}
    {
      ClearOne(w, i, j, m);
    }
  }

  lemma ZeroShows()
    ensures Shows(0, {})
  {
  }

  lemma ZeroIsEmpty(jobs: set<Job>)
    requires Shows(0, jobs)
    ensures jobs == {}
  {
    forall j: Job
      ensures j !in jobs
    {
      assert !Up(0, j);
    }
  }

  /** The scheduler's choice has a bit, and is no write of Configuration. */
  lemma TurnHasBit(jobs: set<Job>)
    requires Turn(jobs) != []
    ensures HasBit(Turn(jobs)[0]) && Turn(jobs)[0] != WriteJob(Configuration)
  {
  }
}
