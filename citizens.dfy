/**
 * CitizenData: the per-citizen record of a colony. Its home building, work
 * building and job form a small ownership state machine; every change marks
 * the record (and the colony's citizen list) dirty; and its fields are saved
 * to and restored from a tag compound.
 *
 * Buildings are compared by identity in the source; here a building is a
 * value naming its location and the job it creates, and equal values stand
 * for the same building.
 */
module Citizens {
  import opened Optional
  import opened Geometry
  import opened Nbt
  import opened WorkOrders

  /** Attributes a citizen may initially have lie below this level. */
  const LEVEL_CAP: int := 5
  const LETTERS_IN_THE_ALPHABET: int := 26

  /** A job, known by its name; a work building creates the job it offers. */
  datatype Job = Job(name: string)

  datatype Building = Building(location: BlockPos, jobName: string) {
    function CreateJob(): Job { Job(jobName) }
  }

  /** The three associations the ownership rules talk about. */
  datatype Assignment = Assignment(home: Option<Building>, work: Option<Building>, job: Option<Job>)

  /**
   * What a setter does: throw (IllegalStateException), leave everything as
   * it was, or change the assignment, marking the record dirty and, when
   * `clearsClaims` holds, clearing the citizen's work-order claims.
   */
  datatype Step = Throws | Unchanged | Changed(after: Assignment, clearsClaims: bool)

  /** setHomeBuilding. */
  function SetHome(a: Assignment, b: Option<Building>): (s: Step)
    ensures s.Throws? <==> a.home.Some? && b.Some? && a.home != b
    ensures s.Unchanged? <==> a.home == b
    ensures s.Changed? ==> s.after.home == b && s.after.work == a.work && s.after.job == a.job && !s.clearsClaims
  {
    if a.home.Some? && b.Some? && a.home != b then Throws
    else if a.home != b then Changed(a.(home := b), false)
    else Unchanged
  }

  /** setWorkBuilding: the job follows the work building. */
  function SetWork(a: Assignment, b: Option<Building>): (s: Step)
    ensures s.Throws? <==> a.work.Some? && b.Some? && a.work != b
    ensures s.Unchanged? <==> a.work == b
    ensures s.Changed? ==> s.after.work == b && s.after.home == a.home
    ensures s.Changed? && b.Some? && a.job.None? ==> s.after.job == Some(b.value.CreateJob()) && s.clearsClaims
    ensures s.Changed? && b.Some? && a.job.Some? ==> s.after.job == a.job && !s.clearsClaims
    ensures s.Changed? && b.None? ==> s.after.job.None? && (s.clearsClaims <==> a.job.Some?)
  {
    if a.work.Some? && b.Some? && a.work != b then Throws
    else if a.work != b then
      if b.Some? then
        if a.job.None? then Changed(a.(work := b, job := Some(b.value.CreateJob())), true)
        else Changed(a.(work := b), false)
      else if a.job.Some? then Changed(a.(work := None, job := None), true)
      else Changed(a.(work := None), false)
    else Unchanged
  }

  /** The assignment after a step that did not throw. */
  function After(a: Assignment, s: Step): Assignment
  {
    if s.Changed? then s.after else a
  }

  /**
   * After any change of work building, the citizen has a job exactly when
   * it has a work building, and a job it already had is never replaced.
   */
  lemma WorkChangeKeepsJobWithWork(a: Assignment, b: Option<Building>)
    requires SetWork(a, b).Changed?
    ensures var a' := SetWork(a, b).after;
      && (a'.work.None? <==> a'.job.None?)
      && (a.job.Some? && a'.job.Some? ==> a'.job == a.job)
  {
  }

  /** Clearing either association never throws. */
  lemma ClearingNeverThrows(a: Assignment)
    ensures !SetHome(a, None).Throws? && !SetWork(a, None).Throws?
  {
  }

  /** Setting the value already held changes nothing, so there is nothing to mark dirty. */
  lemma SettingSameIsIdle(a: Assignment)
    ensures SetHome(a, a.home).Unchanged? && SetWork(a, a.work).Unchanged?
  {
  }

  /** onRemoveBuilding: clear the home, then the work building, wherever it is `b`. */
  function OnRemove(a: Assignment, b: Building): (res: (Assignment, bool, bool))
  {
    var h := if a.home == Some(b) then After(a, SetHome(a, None)) else a;
    var sw := if h.work == Some(b) then SetWork(h, None) else Unchanged;
    (After(h, sw), h != a || sw.Changed?, sw.Changed? && sw.clearsClaims)
  }

  /**
   * Whatever the assignment, removing a building never meets the throwing
   * case; afterwards neither association is that building, an association
   * with another building is untouched, and the job is gone exactly when the
   * work building was the one removed and a job was held.
   */
  lemma OnRemoveClears(a: Assignment, b: Building)
    ensures a.home == Some(b) ==> !SetHome(a, None).Throws?
    ensures a.work == Some(b) ==> !SetWork(a.(home := if a.home == Some(b) then None else a.home), None).Throws?
    ensures var a' := OnRemove(a, b).0;
      && a'.home != Some(b) && a'.work != Some(b)
      && (a.home != Some(b) ==> a'.home == a.home)
      && (a.work != Some(b) ==> a'.work == a.work && a'.job == a.job)
      && (a.work == Some(b) ==> a'.work.None? && a'.job.None?)
    ensures OnRemove(a, b).1 <==> a.home == Some(b) || a.work == Some(b)
    ensures OnRemove(a, b).2 <==> a.work == Some(b) && a.job.Some?
  {
    var h := if a.home == Some(b) then After(a, SetHome(a, None)) else a;
    assert h == a.(home := if a.home == Some(b) then None else a.home);
    if h.work == Some(b) {
      WorkChangeKeepsJobWithWork(h, None);
    }
  }

  /** getRandomLetter: `draw` is the value of `nextInt(26)`. */
  function RandomLetter(draw: int): (c: char)
    requires 0 <= draw < LETTERS_IN_THE_ALPHABET
    ensures 'A' <= c <= 'Z'
    ensures c as int - 'A' as int == draw
  {
    (draw + 'A' as int) as char
  }

  /** Every capital letter is drawn by exactly one value. */
  lemma EveryLetterDrawable(c: char)
    requires 'A' <= c <= 'Z'
    ensures exists draw :: 0 <= draw < LETTERS_IN_THE_ALPHABET && RandomLetter(draw) == c
  {
    var draw := c as int - 'A' as int;
    assert RandomLetter(draw) == c;
  }

  /**
   * generateName: "First M. Last", the first name from the list for the
   * citizen's gender, each element picked by an index the random source drew.
   */
  function GenerateName(female: bool, maleNames: seq<string>, femaleNames: seq<string>, lastNames: seq<string>,
                        firstDraw: int, letterDraw: int, lastDraw: int): (name: string)
    requires 0 <= firstDraw < |if female then femaleNames else maleNames|
    requires 0 <= letterDraw < LETTERS_IN_THE_ALPHABET
    requires 0 <= lastDraw < |lastNames|
    ensures var first := (if female then femaleNames else maleNames)[firstDraw];
      && |name| == |first| + 4 + |lastNames[lastDraw]|
      && name[..|first|] == first
      && name[|first|..|first| + 4] == [' ', RandomLetter(letterDraw), '.', ' ']
      && name[|first| + 4..] == lastNames[lastDraw]
  {
    var first := (if female then femaleNames else maleNames)[firstDraw];
    first + [' ', RandomLetter(letterDraw), '.', ' '] + lastNames[lastDraw]
  }

  datatype Skills = Skills(strength: int, endurance: int, charisma: int, intelligence: int, dexterity: int)

  /** The fields writeToNBT saves that readFromNBT reads back. */
  datatype Saved = Saved(name: string, female: bool, textureId: int, level: int, experience: real, skills: Skills)

  const TAG_ID := "id"
  const TAG_NAME := "name"
  const TAG_FEMALE := "female"
  const TAG_TEXTURE := "texture"
  const TAG_LEVEL := "level"
  const TAG_EXPERIENCE := "experience"
  const TAG_SKILLS := "skills"
  const TAG_JOB := "job"

  function EncodeSkills(k: Skills): Compound
  {
    map["strength" := IntTag(k.strength), "endurance" := IntTag(k.endurance), "charisma" := IntTag(k.charisma),
        "intelligence" := IntTag(k.intelligence), "dexterity" := IntTag(k.dexterity)]
  }

  /** The keys writeToNBT sets, before the job's sub-compound. */
  function Encode(id: int, s: Saved): (c: Compound)
    ensures c.Keys == {TAG_ID, TAG_NAME, TAG_FEMALE, TAG_TEXTURE, TAG_LEVEL, TAG_EXPERIENCE, TAG_SKILLS}
    ensures c[TAG_EXPERIENCE] == DoubleTag(s.experience)
  {
    SetBoolean(map[TAG_ID := IntTag(id), TAG_NAME := StringTag(s.name)], TAG_FEMALE, s.female)
      [TAG_TEXTURE := IntTag(s.textureId)][TAG_LEVEL := IntTag(s.level)][TAG_EXPERIENCE := DoubleTag(s.experience)]
      [TAG_SKILLS := CompoundTag(EncodeSkills(s.skills))]
  }

  function DecodeSkills(c: Compound): Skills
  {
    Skills(GetInteger(c, "strength"), GetInteger(c, "endurance"), GetInteger(c, "charisma"),
           GetInteger(c, "intelligence"), GetInteger(c, "dexterity"))
  }

  /** The fields readFromNBT sets; the experience is read through getInteger. */
  function Decode(c: Compound): Saved
  {
    Saved(GetString(c, TAG_NAME), GetBoolean(c, TAG_FEMALE), GetInteger(c, TAG_TEXTURE), GetInteger(c, TAG_LEVEL),
          GetInteger(c, TAG_EXPERIENCE) as real, DecodeSkills(GetCompound(c, TAG_SKILLS)))
  }

  /**
   * Loading what was saved, into any compound the keys were written over,
   * restores the id, name, gender, texture, level and every skill exactly;
   * the experience comes back rounded down to a whole number.
   */
  lemma DecodeEncode(c: Compound, id: int, s: Saved)
    ensures GetInteger(c + Encode(id, s), TAG_ID) == id
    ensures Decode(c + Encode(id, s)) == s.(experience := s.experience.Floor as real)
  {
    var e := c + Encode(id, s);
    assert e[TAG_SKILLS] == CompoundTag(EncodeSkills(s.skills));
    assert DecodeSkills(GetCompound(e, TAG_SKILLS)) == s.skills;
    assert e[TAG_FEMALE] == ByteTag(if s.female then 1 else 0);
  }

  /** So the experience round-trips exactly when it is a whole number: 0.5 comes back as 0. */
  lemma ExperienceLosesFraction(s: Saved)
    requires s.experience == 0.5
    ensures Decode(Encode(0, s)).experience == 0.0 != s.experience
  {
    DecodeEncode(map[], 0, s);
    assert 0.0 <= 0.5 < 1.0;
  }

  /** The colony's side of the record: its dirty flag for citizens, and its work manager. */
  class Colony {
    var citizensDirty: bool
    const workManager: WorkManager

    constructor (manager: WorkManager)
      ensures workManager == manager && !citizensDirty
    {
      workManager := manager;
      citizensDirty := false;
    }

    method MarkCitizensDirty()
      modifies this
      ensures citizensDirty
    {
      citizensDirty := true;
    }
  }

  class CitizenData {
    const id: int
    const colony: Colony
    var name: string
    var female: bool
    var textureId: int
    var homeBuilding: Option<Building>
    var workBuilding: Option<Building>
    var job: Option<Job>
    var dirty: bool
    /** strength, endurance, charisma, intelligence and dexterity. */
    var skills: Skills
    var level: int
    var experience: real

    ghost predicate Valid()
      reads this, colony.workManager
    {
      colony.workManager.Valid()
    }

    function Assign(): Assignment
      reads this
    {
      Assignment(homeBuilding, workBuilding, job)
    }

    function SavedFields(): Saved
      reads this
    {
      Saved(name, female, textureId, level, experience, skills)
    }

    /** CitizenData(id, colony): nothing assigned, nothing dirty. */
    constructor (id: int, colony: Colony)
      ensures this.id == id && this.colony == colony
      ensures Assign() == Assignment(None, None, None) && !dirty
      ensures SavedFields() == Saved("", false, 0, 0, 0.0, Skills(0, 0, 0, 0, 0))
    {
      this.id := id;
      this.colony := colony;
      name := "";
      female := false;
      textureId := 0;
      homeBuilding := None;
      workBuilding := None;
      job := None;
      dirty := false;
      skills := Skills(0, 0, 0, 0, 0);
      level := 0;
      experience := 0.0;
    }

    /** markDirty: the record and the colony's citizen list. */
    method MarkDirty()
      modifies this, colony
      ensures dirty && colony.citizensDirty
      ensures Assign() == old(Assign()) && SavedFields() == old(SavedFields())
    {
      dirty := true;
      colony.MarkCitizensDirty();
    }

    method ClearDirty()
      modifies this
      ensures !dirty
      ensures Assign() == old(Assign()) && SavedFields() == old(SavedFields())
    {
      dirty := false;
    }

    /** setJob: always marks dirty, even when the job is the same. */
    method SetJob(j: Option<Job>)
      modifies this, colony
      ensures job == j && homeBuilding == old(homeBuilding) && workBuilding == old(workBuilding)
      ensures dirty && colony.citizensDirty
      ensures SavedFields() == old(SavedFields())
    {
      job := j;
      MarkDirty();
    }

    /**
     * initializeFromEntity, with the random draws as inputs: the gender,
     * the name's three picks, `nextInt(Integer.MAX_VALUE)` for the texture,
     * and five `nextInt(LEVEL_CAP - 1)` draws for the skills.
     */
    method InitializeFromEntity(femaleDraw: bool, maleNames: seq<string>, femaleNames: seq<string>, lastNames: seq<string>,
                                firstDraw: int, letterDraw: int, lastDraw: int, textureDraw: int, skillDraws: seq<int>)
      requires 0 <= firstDraw < |if femaleDraw then femaleNames else maleNames|
      requires 0 <= letterDraw < LETTERS_IN_THE_ALPHABET && 0 <= lastDraw < |lastNames|
      requires 0 <= textureDraw < 0x7fff_ffff
      requires |skillDraws| == 5 && forall i :: 0 <= i < 5 ==> 0 <= skillDraws[i] < LEVEL_CAP - 1
      modifies this, colony
      ensures female == femaleDraw && textureId == textureDraw
      ensures name == GenerateName(femaleDraw, maleNames, femaleNames, lastNames, firstDraw, letterDraw, lastDraw)
      ensures level == 0 && experience == 0.0
      ensures 1 <= skills.intelligence <= LEVEL_CAP - 1 && 1 <= skills.charisma <= LEVEL_CAP - 1
      ensures 1 <= skills.strength <= LEVEL_CAP - 1 && 1 <= skills.endurance <= LEVEL_CAP - 1
      ensures 1 <= skills.dexterity <= LEVEL_CAP - 1
      ensures skills == Skills(skillDraws[2] + 1, skillDraws[3] + 1, skillDraws[1] + 1, skillDraws[0] + 1, skillDraws[4] + 1)
      ensures Assign() == old(Assign()) && dirty && colony.citizensDirty
    {
      female := femaleDraw;
      name := GenerateName(female, maleNames, femaleNames, lastNames, firstDraw, letterDraw, lastDraw);
      textureId := textureDraw;
      experience := 0.0;
      level := 0;
      var intelligence := skillDraws[0] + 1;
      var charisma := skillDraws[1] + 1;
      var strength := skillDraws[2] + 1;
      var endurance := skillDraws[3] + 1;
      var dexterity := skillDraws[4] + 1;
      skills := Skills(strength, endurance, charisma, intelligence, dexterity);
      MarkDirty();
    }

    /** setHomeBuilding; `thrown` reports the IllegalStateException, which leaves everything as it was. */
    method SetHomeBuilding(b: Option<Building>) returns (thrown: bool)
      modifies this, colony
      ensures var s := SetHome(old(Assign()), b);
        && (thrown <==> s.Throws?)
        && Assign() == After(old(Assign()), s)
        && (s.Changed? ==> dirty && colony.citizensDirty)
        && (!s.Changed? ==> dirty == old(dirty) && colony.citizensDirty == old(colony.citizensDirty))
      ensures SavedFields() == old(SavedFields())
    {
      if homeBuilding.Some? && b.Some? && homeBuilding != b {
        return true;
      } else if homeBuilding != b {
        homeBuilding := b;
        MarkDirty();
      }
      return false;
    }

    /**
     * setWorkBuilding; `thrown` reports the IllegalStateException. A new job
     * comes from the building; creating or dropping one clears the citizen's
     * claims on the colony's work orders.
     */
    method SetWorkBuilding(b: Option<Building>) returns (thrown: bool)
      requires Valid()
      modifies this, colony, colony.workManager
      ensures Valid()
      ensures var s := SetWork(old(Assign()), b);
        && (thrown <==> s.Throws?)
        && Assign() == After(old(Assign()), s)
        && (s.Changed? ==> dirty && colony.citizensDirty)
        && (!s.Changed? ==> dirty == old(dirty) && colony.citizensDirty == old(colony.citizensDirty))
        && colony.workManager.workOrders ==
             if s.Changed? && s.clearsClaims then ClearClaims(old(colony.workManager.workOrders), id)
             else old(colony.workManager.workOrders)
      ensures colony.workManager.topWorkOrderId == old(colony.workManager.topWorkOrderId)
      ensures SavedFields() == old(SavedFields())
    {
      if workBuilding.Some? && b.Some? && workBuilding != b {
        return true;
      } else if workBuilding != b {
        workBuilding := b;
        if workBuilding.Some? {
          if job.None? {
            SetJob(Some(workBuilding.value.CreateJob()));
            colony.workManager.ClearWorkForCitizen(id);
          }
        } else if job.Some? {
          SetJob(None);
          colony.workManager.ClearWorkForCitizen(id);
        }
        MarkDirty();
      }
      return false;
    }

    /** onRemoveBuilding. */
    method OnRemoveBuilding(b: Building)
      requires Valid()
      modifies this, colony, colony.workManager
      ensures Valid()
      ensures var r := OnRemove(old(Assign()), b);
        && Assign() == r.0
        && (r.1 ==> dirty && colony.citizensDirty)
        && (!r.1 ==> dirty == old(dirty) && colony.citizensDirty == old(colony.citizensDirty))
        && colony.workManager.workOrders ==
             if r.2 then ClearClaims(old(colony.workManager.workOrders), id) else old(colony.workManager.workOrders)
      ensures colony.workManager.topWorkOrderId == old(colony.workManager.topWorkOrderId)
      ensures SavedFields() == old(SavedFields())
    {
      OnRemoveClears(Assign(), b);
      if homeBuilding == Some(b) {
        var thrown := SetHomeBuilding(None);
      }
      if workBuilding == Some(b) {
        var thrown := SetWorkBuilding(None);
      }
    }

    /**
     * writeToNBT over the given compound; `jobToNBT` stands for the job's own
     * writeToNBT, whose result is stored under "job".
     */
    function WriteToNBT(compound: Compound, jobToNBT: Job -> Compound): (out: Compound)
      reads this
      ensures out.Keys == compound.Keys + Encode(id, SavedFields()).Keys + (if job.Some? then {TAG_JOB} else {})
      ensures job.Some? ==> out[TAG_JOB] == CompoundTag(jobToNBT(job.value))
      ensures forall k :: k in compound && k !in out.Keys - compound.Keys && k !in Encode(id, SavedFields()) && k != TAG_JOB ==> out[k] == compound[k]
    {
      var saved := compound + Encode(id, SavedFields());
      if job.Some? then saved[TAG_JOB := CompoundTag(jobToNBT(job.value))] else saved
    }

    /**
     * readFromNBT; `jobFromNBT` stands for AbstractJob.createFromNBT, which
     * may yield no job. A job entry, when present, goes through setJob.
     */
    method ReadFromNBT(compound: Compound, jobFromNBT: Compound -> Option<Job>)
      modifies this, colony
      ensures SavedFields() == Decode(compound)
      ensures homeBuilding == old(homeBuilding) && workBuilding == old(workBuilding)
      ensures TAG_JOB in compound ==> job == jobFromNBT(GetCompound(compound, TAG_JOB)) && dirty && colony.citizensDirty
      ensures TAG_JOB !in compound ==> job == old(job) && dirty == old(dirty) && colony.citizensDirty == old(colony.citizensDirty)
    {
      name := GetString(compound, TAG_NAME);
      female := GetBoolean(compound, TAG_FEMALE);
      textureId := GetInteger(compound, TAG_TEXTURE);
      level := GetInteger(compound, TAG_LEVEL);
      experience := GetInteger(compound, TAG_EXPERIENCE) as real;
      skills := DecodeSkills(GetCompound(compound, TAG_SKILLS));
      if TAG_JOB in compound {
        SetJob(jobFromNBT(GetCompound(compound, TAG_JOB)));
      }
    }

    /** createFromNBT: the id is read first, then the rest of the record. */
    constructor FromNBT(compound: Compound, colony: Colony, jobFromNBT: Compound -> Option<Job>)
      modifies colony
      ensures id == GetInteger(compound, TAG_ID) && this.colony == colony
      ensures SavedFields() == Decode(compound)
      ensures homeBuilding.None? && workBuilding.None?
      ensures job == if TAG_JOB in compound then jobFromNBT(GetCompound(compound, TAG_JOB)) else None
      ensures dirty <==> TAG_JOB in compound
    {
      id := GetInteger(compound, TAG_ID);
      this.colony := colony;
      name := "";
      female := false;
      textureId := 0;
      homeBuilding := None;
      workBuilding := None;
      job := None;
      dirty := false;
      skills := Skills(0, 0, 0, 0, 0);
      level := 0;
      experience := 0.0;
      new;
      ReadFromNBT(compound, jobFromNBT);
    }
  }

  /**
   * A record saved and loaded into a fresh one comes back with the same id
   * and saved fields, experience aside.
   */
  method SaveAndReload(c: CitizenData, colony: Colony, jobToNBT: Job -> Compound, jobFromNBT: Compound -> Option<Job>)
      returns (copy: CitizenData)
    requires c.SavedFields().experience.Floor as real == c.SavedFields().experience
    modifies colony
    ensures copy.id == c.id && copy.SavedFields() == c.SavedFields()
  {
    var stored := c.WriteToNBT(map[], jobToNBT);
    var written := map[] + Encode(c.id, c.SavedFields());
    DecodeEncode(map[], c.id, c.SavedFields());
    assert forall k :: k in stored && k != TAG_JOB ==> k in written && stored[k] == written[k];
    assert Decode(stored) == Decode(written);
    copy := new CitizenData.FromNBT(stored, colony, jobFromNBT);
  }
}
