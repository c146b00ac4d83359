/**
 * backend/app/services/interview_service.py: the users collection as the
 * service sees it. Users are found by email or by id; each keeps its
 * star total and a skill tree, an insertion-ordered dictionary from
 * subject to progress. Timestamps are left out.
 */
module Progress {
  import opened Wrappers
  import opened Curriculum

  /** A subject's progress: `level` (0 locked … 3 master) and `stars`. */
  datatype SkillProgress = SkillProgress(level: int, stars: int)

  /** The defaults of a new progress record. */
  const FreshProgress := SkillProgress(0, 0)

  datatype User = User(email: string, nickname: string, totalStars: int, skills: seq<Entry<SkillProgress>>)

  /** What `get_user_state` returns for a known user. */
  datatype UserSummary = UserSummary(nickname: string, totalStars: int, recentSkills: seq<Entry<SkillProgress>>)

  /** The score a passed answer needs for a star. */
  const StarScore := 70

  /** `d[k] = v` on an insertion-ordered dictionary: a present key keeps its place, a new one goes last. */
  function Put<V>(d: seq<Entry<V>>, k: string, v: V): (r: seq<Entry<V>>)
    ensures HasKey(d, k) ==> Keys(r) == Keys(d)
    ensures !HasKey(d, k) ==> r == d + [Entry(k, v)]
    ensures Get(r, k) == Some(v)
    ensures forall j :: j != k ==> Get(r, j) == Get(d, j)
  {
    if d == [] then [Entry(k, v)]
    else if d[0].key == k then [Entry(k, v)] + d[1..]
    else
      assert Keys(d) == [d[0].key] + Keys(d[1..]);
      [d[0]] + Put(d[1..], k, v)
  }

  lemma PutKeepsDistinct<V>(d: seq<Entry<V>>, k: string, v: V)
    requires DistinctKeys(d)
    ensures DistinctKeys(Put(d, k, v))
  {
    var r := Put(d, k, v);
    if HasKey(d, k) {
      forall i, j | 0 <= i < j < |r| ensures r[i].key != r[j].key {
        assert Keys(r)[i] == Keys(d)[i] && Keys(r)[j] == Keys(d)[j];
      }
    } else {
      forall i, j | 0 <= i < j < |r| ensures r[i].key != r[j].key {
        if j == |d| {
          assert d[i].key in Keys(d);
        }
      }
    }
  }

  /** The progress after one graded answer: a star on a grant, then a level when the stars reach 3 below level 3. */
  function Graded(p: SkillProgress, grant: bool): SkillProgress {
    if !grant then p
    else
      var q := p.(stars := p.stars + 1);
      if q.stars >= 3 && q.level < 3 then q.(level := q.level + 1) else q
  }

  /** The user after `update_skill_status(subject, passed, score)`. */
  function Updated(u: User, subject: string, passed: bool, score: int): User {
    var grant := passed && score >= StarScore;
    var before := Get(u.skills, subject).GetOr(FreshProgress);
    u.(skills := Put(u.skills, subject, Graded(before, grant)),
       totalStars := u.totalStars + if grant then 1 else 0)
  }

  /**
   * One graded answer: a star is granted exactly for a pass scoring at
   * least 70, and then the subject's stars and the user's total each rise
   * by one; the level rises by one only on a grant that brings the stars
   * to 3 or more below level 3, so it never passes 3; a subject met for
   * the first time starts from the defaults and is added last; every
   * other subject is untouched.
   */
  lemma UpdatedEffect(u: User, subject: string, passed: bool, score: int)
    ensures var grant := passed && score >= 70;
      var before := Get(u.skills, subject).GetOr(FreshProgress);
      var v := Updated(u, subject, passed, score);
      var after := Get(v.skills, subject).value;
      && v.email == u.email && v.nickname == u.nickname
      && v.totalStars == (if grant then u.totalStars + 1 else u.totalStars)
      && after.stars == (if grant then before.stars + 1 else before.stars)
      && (after.level == before.level + 1 <==> grant && before.stars + 1 >= 3 && before.level < 3)
      && (after.level != before.level + 1 ==> after.level == before.level)
      && (before.level <= 3 ==> after.level <= 3)
      && (!HasKey(u.skills, subject) ==> v.skills == u.skills + [Entry(subject, after)])
      && (forall j :: j != subject ==> Get(v.skills, j) == Get(u.skills, j))
  {
  }

  /** `recent_skills`: the first five subjects of the skill tree, in its order. */
  function Summary(u: User): (s: UserSummary)
    ensures |s.recentSkills| == if |u.skills| < 5 then |u.skills| else 5
    ensures s.recentSkills <= u.skills
    ensures s.nickname == u.nickname && s.totalStars == u.totalStars
  {
    UserSummary(u.nickname, u.totalStars, if |u.skills| < 5 then u.skills else u.skills[..5])
  }

  /** The first id from `i` on whose user has the email. */
  function FindEmail(users: map<nat, User>, nextId: nat, email: string, i: nat): (r: Option<nat>)
    decreases nextId - i
    ensures r.Some? ==> i <= r.value < nextId && r.value in users && users[r.value].email == email
    ensures r.None? ==> forall id :: i <= id < nextId && id in users ==> users[id].email != email
  {
    if i >= nextId then None
    else if i in users && users[i].email == email then Some(i)
    else FindEmail(users, nextId, email, i + 1)
  }

  /** Ids are handed out in creation order, each email is used at most once, and no skill tree repeats a subject. */
  ghost predicate ValidStore(users: map<nat, User>, nextId: nat) {
    && (forall id: nat :: id in users <==> id < nextId)
    && (forall a: nat, b: nat :: a in users && b in users && users[a].email == users[b].email ==> a == b)
    && (forall id: nat :: id in users ==> DistinctKeys(users[id].skills))
  }

  /** Replacing a user by one with the same email and a well-formed skill tree keeps the store valid. */
  lemma ReplaceKeepsValid(users: map<nat, User>, nextId: nat, userId: nat, v: User)
    requires ValidStore(users, nextId) && userId in users
    requires v.email == users[userId].email && DistinctKeys(v.skills)
    ensures ValidStore(users[userId := v], nextId)
  {
  }

  /** The `users` collection. */
  class UserStore {
    var users: map<nat, User>
    var nextId: nat

    ghost predicate Valid()
      reads this
    {
      ValidStore(users, nextId)
    }

    constructor ()
      ensures Valid() && users == map[] && nextId == 0
    {
      users := map[];
      nextId := 0;
    }

    /** `user_crud.get_by_email`: the id of the user with this email, if there is one. */
    method GetByEmail(email: string) returns (found: Option<nat>)
      requires Valid()
      ensures found == FindEmail(users, nextId, email, 0)
      ensures found.Some? ==> found.value in users && users[found.value].email == email
      ensures found.None? ==> forall id :: id in users ==> users[id].email != email
    {
      var i := 0;
      while i < nextId
        invariant 0 <= i <= nextId
        invariant FindEmail(users, nextId, email, 0) == FindEmail(users, nextId, email, i)
      {
        if users[i].email == email {
          return Some(i);
        }
        i := i + 1;
      }
      return None;
    }

    /**
     * `get_or_create_user`: the existing user for a known email, otherwise
     * a new guest user with no stars and an empty skill tree.
     */
    method GetOrCreateUser(email: string, nickname: string) returns (id: nat)
      requires Valid()
      modifies this
      ensures Valid()
      ensures id in users && users[id].email == email
      ensures FindEmail(old(users), old(nextId), email, 0).Some? ==> users == old(users) && nextId == old(nextId)
      ensures FindEmail(old(users), old(nextId), email, 0).None? ==>
        id == old(nextId) && nextId == old(nextId) + 1 && users == old(users)[id := User(email, nickname, 0, [])]
    {
      var existing := GetByEmail(email);
      if existing.Some? {
        return existing.value;
      }
      id := nextId;
      users := users[id := User(email, nickname, 0, [])];
      nextId := nextId + 1;
    }

    /**
     * `update_skill_status`: False, changing nothing, for an unknown user;
     * otherwise whether a star was granted, with the user replaced by its
     * graded version.
     */
    method UpdateSkillStatus(userId: nat, subject: string, passed: bool, score: int) returns (granted: bool)
      requires Valid()
      modifies this
      ensures Valid() && nextId == old(nextId)
      ensures userId !in old(users) ==> !granted && users == old(users)
      ensures userId in old(users) ==>
        && granted == (passed && score >= StarScore)
        && users == old(users)[userId := Updated(old(users)[userId], subject, passed, score)]
    {
      if userId !in users {
        return false;
      }
      var user := users[userId];
      var updated;
      updated, granted := GradeUser(user, subject, passed, score);
      PutKeepsDistinct(user.skills, subject, Graded(Get(user.skills, subject).GetOr(FreshProgress), granted));
      ReplaceKeepsValid(users, nextId, userId, updated);
      users := users[userId := updated];
    }

    /** `get_user_state`: nothing for an unknown user, the summary otherwise. */
    method GetUserState(userId: nat) returns (state: Option<UserSummary>)
      ensures userId !in users ==> state.None?
      ensures userId in users ==> state == Some(Summary(users[userId]))
    {
      if userId !in users {
        return None;
      }
      return Some(Summary(users[userId]));
    }
  }

  /**
   * The body of `update_skill_status` for a found user: the subject gets a
   * fresh progress record when it is new, then a star (and perhaps a
   * level) on a pass scoring at least 70.
   */
  method GradeUser(user: User, subject: string, passed: bool, score: int) returns (updated: User, granted: bool)
    ensures granted == (passed && score >= StarScore)
    ensures updated == Updated(user, subject, passed, score)
  {
    var skills := user.skills;
    if !HasKey(skills, subject) {
      skills := Put(skills, subject, FreshProgress);
    }
    var progress := Get(skills, subject).value;
    var total := user.totalStars;
    granted := false;
    if passed && score >= StarScore {
      progress := progress.(stars := progress.stars + 1);
      total := total + 1;
      granted := true;
      if progress.stars >= 3 && progress.level < 3 {
        progress := progress.(level := progress.level + 1);
      }
    }
    assert progress == Graded(Get(user.skills, subject).GetOr(FreshProgress), granted);
    if !HasKey(user.skills, subject) {
      PutTwice(user.skills, subject, FreshProgress, progress);
    }
    skills := Put(skills, subject, progress);
    updated := user.(skills := skills, totalStars := total);
  }

  /** Writing a key twice is writing it once with the second value. */
  lemma {:induction false} PutTwice<V>(d: seq<Entry<V>>, k: string, v: V, w: V)
    ensures Put(Put(d, k, v), k, w) == Put(d, k, w)
  {
    if d != [] && d[0].key != k {
      PutTwice(d[1..], k, v, w);
    }
  }

  /** A store after `get_or_create_user`, as a function of the store before. */
  function AfterGetOrCreate(users: map<nat, User>, nextId: nat, email: string, nickname: string): (map<nat, User>, nat) {
    if FindEmail(users, nextId, email, 0).Some? then (users, nextId)
    else (users[nextId := User(email, nickname, 0, [])], nextId + 1)
  }

  /** After adding a user under a fresh id, that id is the one found for its email. */
  lemma {:induction false} FindAfterAdd(users: map<nat, User>, nextId: nat, email: string, nickname: string, i: nat)
    requires forall id :: id in users ==> id < nextId
    requires i <= nextId
    requires forall id :: i <= id < nextId && id in users ==> users[id].email != email
    ensures FindEmail(users[nextId := User(email, nickname, 0, [])], nextId + 1, email, i) == Some(nextId)
    decreases nextId - i
  {
    if i < nextId {
      FindAfterAdd(users, nextId, email, nickname, i + 1);
    }
  }

  /** Getting or creating the same email twice creates at most one user: the second call changes nothing. */
  lemma GetOrCreateIdempotent(users: map<nat, User>, nextId: nat, email: string, nickname: string, nickname2: string)
    requires forall id :: id in users ==> id < nextId
    ensures var (u1, n1) := AfterGetOrCreate(users, nextId, email, nickname);
      AfterGetOrCreate(u1, n1, email, nickname2) == (u1, n1)
  {
    if FindEmail(users, nextId, email, 0).None? {
      FindAfterAdd(users, nextId, email, nickname, 0);
    }
  }
}
