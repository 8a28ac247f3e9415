/**
 * The member lists of the members course node (MembersCourseNodeRunController):
 * the identity comparator, the e-mail permission, gathering coaches and
 * participants from the course and its groups, building one member entry
 * per identity with optional cross-list de-duplication, and the chat status
 * icons of the member entries.
 *
 * Link components are reduced to what the model can state about them: the
 * number in their names, whether an e-mail link exists, and the visibility
 * and icon of the chat link.
 */
module MembersRun {
  import opened Common

  /** An identity with the two user properties the controller reads. */
  datatype Person = Person(key: nat, firstName: Option<string>, lastName: Option<string>)

  // ---------------------------------------------------------------------
  // IdentityComparator

  /** The ASCII part of the case folding of String.compareToIgnoreCase. */
  function Fold(c: char): char
  {
    if 'A' <= c <= 'Z' then (c - 'A' + 'a') as char else c
  }

  /** String.compareToIgnoreCase: the difference of the first folded
      characters that differ, or else the difference of the lengths. */
  function CompareIgnoreCase(a: string, b: string): int
  {
    if a == [] || b == [] then |a| - |b|
    else if Fold(a[0]) != Fold(b[0]) then Fold(a[0]) as int - Fold(b[0]) as int
    else CompareIgnoreCase(a[1..], b[1..])
  }

  lemma {:induction false} CompareIgnoreCaseAntisymmetric(a: string, b: string)
    ensures CompareIgnoreCase(a, b) == -CompareIgnoreCase(b, a)
  {
    if a != [] && b != [] && Fold(a[0]) == Fold(b[0]) {
      CompareIgnoreCaseAntisymmetric(a[1..], b[1..]);
    }
  }

  /** Ties are exactly the strings that agree up to ASCII case. */
  lemma {:induction false} CompareIgnoreCaseZero(a: string, b: string)
    ensures CompareIgnoreCase(a, b) == 0 <==> (|a| == |b| && forall i :: 0 <= i < |a| ==> Fold(a[i]) == Fold(b[i]))
  {
    if a != [] && b != [] && Fold(a[0]) == Fold(b[0]) {
      CompareIgnoreCaseZero(a[1..], b[1..]);
      if |a| == |b| {
        assert forall i :: 1 <= i < |a| ==> a[i] == a[1..][i - 1] && b[i] == b[1..][i - 1];
      }
    } else if a != [] && b != [] {
      assert Fold(a[0]) != Fold(b[0]);
    }
  }

  lemma {:induction false} CompareIgnoreCaseTransitive(a: string, b: string, c: string)
    requires CompareIgnoreCase(a, b) <= 0 && CompareIgnoreCase(b, c) <= 0
    ensures CompareIgnoreCase(a, c) <= 0
  {
    if a != [] && b != [] && c != [] && Fold(a[0]) == Fold(b[0]) && Fold(b[0]) == Fold(c[0]) {
      CompareIgnoreCaseTransitive(a[1..], b[1..], c[1..]);
    }
  }

  /** IdentityComparator.compare as written: a null identity, last name or
      first name on the left compares below, even when the right one is
      null as well. */
  function CompareAsWritten(id1: Option<Person>, id2: Option<Person>): int
  {
    if id1.None? then -1
    else if id2.None? then 1
    else
      var l1, l2 := id1.value.lastName, id2.value.lastName;
      if l1.None? then -1
      else if l2.None? then 1
      else
        var result := CompareIgnoreCase(l1.value, l2.value);
        if result == 0 then
          var f1, f2 := id1.value.firstName, id2.value.firstName;
          if f1.None? then -1
          else if f2.None? then 1
          else CompareIgnoreCase(f1.value, f2.value)
        else result
  }

  /** The comparator as written breaks the Comparator contract: an identity
      without a last name compares below itself, and so does null. */
  lemma ComparatorAsWrittenNotReflexive()
    ensures CompareAsWritten(None, None) == -1
    ensures var x := Some(Person(1, Some("Ada"), None));
      CompareAsWritten(x, x) == -1 && CompareAsWritten(x, x) != -CompareAsWritten(x, x)
  {
  }

  /** Null-aware comparison of two nullable values: null first, two nulls
      tie. */
  function CompareNullsFirst(s1: Option<string>, s2: Option<string>): int
  {
    if s1.None? && s2.None? then 0
    else if s1.None? then -1
    else if s2.None? then 1
    else CompareIgnoreCase(s1.value, s2.value)
  }

  /** IdentityComparator.compare with two nulls tying: null identities
      first, then by last name and on a tie by first name, both
      case-insensitively with null names first. */
  function Compare(id1: Option<Person>, id2: Option<Person>): (r: int)
    ensures id1.None? && id2.Some? ==> r < 0
    ensures id1.Some? && id2.Some? && id1.value.lastName.None? && id2.value.lastName.Some? ==> r < 0
    ensures id1.Some? && id2.Some? && id1.value.lastName.Some? && id2.value.lastName.Some?
      && CompareIgnoreCase(id1.value.lastName.value, id2.value.lastName.value) != 0
      ==> r == CompareIgnoreCase(id1.value.lastName.value, id2.value.lastName.value)
    ensures id1.Some? && id2.Some? && CompareNullsFirst(id1.value.lastName, id2.value.lastName) == 0
      ==> r == CompareNullsFirst(id1.value.firstName, id2.value.firstName)
    ensures id1.None? && id2.None? ==> r == 0
  {
    if id1.None? && id2.None? then 0
    else if id1.None? then -1
    else if id2.None? then 1
    else
      var result := CompareNullsFirst(id1.value.lastName, id2.value.lastName);
      if result == 0 then CompareNullsFirst(id1.value.firstName, id2.value.firstName) else result
  }

  /** The corrected comparator agrees with the one as written wherever no
      two nulls meet. */
  lemma CompareAgreesWithAsWritten(id1: Option<Person>, id2: Option<Person>)
    requires id1.Some? && id2.Some?
    requires id1.value.lastName.Some? || id2.value.lastName.Some?
    requires id1.value.firstName.Some? || id2.value.firstName.Some?
    ensures Compare(id1, id2) == CompareAsWritten(id1, id2)
  {
  }

  /** The Comparator contract: sgn(compare(x, y)) == -sgn(compare(y, x)),
      hence compare(x, x) == 0. */
  lemma CompareAntisymmetric(id1: Option<Person>, id2: Option<Person>)
    ensures Compare(id1, id2) == -Compare(id2, id1)
    ensures Compare(id1, id1) == 0
  {
    if id1.Some? && id2.Some? {
      NullsFirstAntisymmetric(id1.value.lastName, id2.value.lastName);
      NullsFirstAntisymmetric(id1.value.firstName, id2.value.firstName);
    }
    if id1.Some? {
      NullsFirstAntisymmetric(id1.value.lastName, id1.value.lastName);
      NullsFirstAntisymmetric(id1.value.firstName, id1.value.firstName);
    }
  }

  lemma NullsFirstAntisymmetric(s1: Option<string>, s2: Option<string>)
    ensures CompareNullsFirst(s1, s2) == -CompareNullsFirst(s2, s1)
  {
    if s1.Some? && s2.Some? {
      CompareIgnoreCaseAntisymmetric(s1.value, s2.value);
    }
  }

  lemma NullsFirstTransitive(s1: Option<string>, s2: Option<string>, s3: Option<string>)
    requires CompareNullsFirst(s1, s2) <= 0 && CompareNullsFirst(s2, s3) <= 0
    ensures CompareNullsFirst(s1, s3) <= 0
  {
    if s1.Some? && s2.Some? && s3.Some? {
      CompareIgnoreCaseTransitive(s1.value, s2.value, s3.value);
    }
  }

  /** A zero result of the null-aware comparison, written out. */
  lemma NullsFirstZero(s1: Option<string>, s2: Option<string>)
    ensures CompareNullsFirst(s1, s2) == 0 <==>
      (s1.None? && s2.None?) || (s1.Some? && s2.Some? && CompareIgnoreCase(s1.value, s2.value) == 0)
  {
  }

  /** The Comparator contract: compare(x, y) <= 0 and compare(y, z) <= 0
      give compare(x, z) <= 0. */
  lemma CompareTransitive(id1: Option<Person>, id2: Option<Person>, id3: Option<Person>)
    requires Compare(id1, id2) <= 0 && Compare(id2, id3) <= 0
    ensures Compare(id1, id3) <= 0
  {
    if id1.Some? && id2.Some? && id3.Some? {
      var a, b, c := id1.value, id2.value, id3.value;
      NullsFirstTransitive(a.lastName, b.lastName, c.lastName);
      NullsFirstAntisymmetric(a.lastName, b.lastName);
      NullsFirstAntisymmetric(b.lastName, c.lastName);
      NullsFirstAntisymmetric(a.lastName, c.lastName);
      if CompareNullsFirst(a.lastName, b.lastName) == 0 && CompareNullsFirst(b.lastName, c.lastName) == 0 {
        NullsFirstTransitive(a.firstName, b.firstName, c.firstName);
        NullsFirstEquivalence(a.lastName, b.lastName, c.lastName);
      } else if CompareNullsFirst(a.lastName, b.lastName) == 0 {
        NullsFirstSubstitute(a.lastName, b.lastName, c.lastName);
      } else if CompareNullsFirst(b.lastName, c.lastName) == 0 {
        NullsFirstSubstituteRight(a.lastName, b.lastName, c.lastName);
      } else {
        NullsFirstStrict(a.lastName, b.lastName, c.lastName);
      }
    }
  }

  lemma NullsFirstEquivalence(s1: Option<string>, s2: Option<string>, s3: Option<string>)
    requires CompareNullsFirst(s1, s2) == 0 && CompareNullsFirst(s2, s3) == 0
    ensures CompareNullsFirst(s1, s3) == 0
  {
    NullsFirstTransitive(s1, s2, s3);
    NullsFirstAntisymmetric(s1, s2);
    NullsFirstAntisymmetric(s2, s3);
    NullsFirstTransitive(s3, s2, s1);
    NullsFirstAntisymmetric(s1, s3);
  }

  /** A tie on the left can be replaced by its partner. */
  lemma NullsFirstSubstitute(s1: Option<string>, s2: Option<string>, s3: Option<string>)
    requires CompareNullsFirst(s1, s2) == 0 && CompareNullsFirst(s2, s3) < 0
    ensures CompareNullsFirst(s1, s3) < 0
  {
    NullsFirstTransitive(s1, s2, s3);
    if CompareNullsFirst(s1, s3) == 0 {
      NullsFirstAntisymmetric(s1, s2);
      NullsFirstAntisymmetric(s1, s3);
      NullsFirstTransitive(s3, s1, s2);
      NullsFirstAntisymmetric(s2, s3);
    }
  }

  lemma NullsFirstStrict(s1: Option<string>, s2: Option<string>, s3: Option<string>)
    requires CompareNullsFirst(s1, s2) < 0 && CompareNullsFirst(s2, s3) < 0
    ensures CompareNullsFirst(s1, s3) < 0
  {
    NullsFirstTransitive(s1, s2, s3);
    if CompareNullsFirst(s1, s3) == 0 {
      NullsFirstAntisymmetric(s1, s3);
      NullsFirstSubstituteRight(s2, s3, s1);
      NullsFirstAntisymmetric(s1, s2);
    }
  }

  lemma NullsFirstSubstituteRight(s1: Option<string>, s2: Option<string>, s3: Option<string>)
    requires CompareNullsFirst(s1, s2) < 0 && CompareNullsFirst(s2, s3) == 0
    ensures CompareNullsFirst(s1, s3) < 0
  {
    NullsFirstTransitive(s1, s2, s3);
    if CompareNullsFirst(s1, s3) == 0 {
      NullsFirstAntisymmetric(s2, s3);
      NullsFirstAntisymmetric(s1, s3);
      NullsFirstTransitive(s2, s3, s1);
      NullsFirstAntisymmetric(s1, s2);
    }
  }

  // ---------------------------------------------------------------------
  // The e-mail permission

  /** MembersCourseNode.EMAIL_FUNCTION_ALL and EMAIL_FUNCTION_COACH_ADMIN. */
  const EMAIL_FUNCTION_ALL: string := "all"
  const EMAIL_FUNCTION_COACH_ADMIN: string := "coachAndAdmin"

  /** canEmail: the configured e-mail function (coach-and-admin when unset)
      is "all", or the viewer is an administrator or a coach of the course. */
  function CanEmail(emailFunction: Option<string>, isAdmin: bool, isCoach: bool): (r: bool)
    ensures r <==> emailFunction == Some(EMAIL_FUNCTION_ALL) || isAdmin || isCoach
    ensures emailFunction.None? ==> (r <==> isAdmin || isCoach)
  {
    var emailFct := if emailFunction.Some? then emailFunction.value else EMAIL_FUNCTION_COACH_ADMIN;
    emailFct == EMAIL_FUNCTION_ALL || isAdmin || isCoach
  }

  // ---------------------------------------------------------------------
  // Gathering coaches and participants

  /** What the course group manager returns for the course and its groups. */
  datatype CourseMembers = CourseMembers(
    fromConfiguredGroups: seq<Person>, fromConfiguredAreas: seq<Person>,
    ofCourse: seq<Person>, fromAllAreas: seq<Person>, fromAllGroups: seq<Person>)

  /** The parts of the node configuration addCoaches and addParticipants
      read: a group or area selection, and the "course" and "all" flags. */
  datatype MemberSelection = MemberSelection(hasGroups: bool, hasAreas: bool, course: bool, all: bool)

  /** retrieveCoachesFromCourseGroups / retrieveParticipantsFromCourseGroups:
      the members of all areas and all groups, without duplicates. */
  method RetrieveFromCourseGroups(fromAreas: seq<Person>, fromGroups: seq<Person>) returns (xs: seq<Person>)
    ensures Distinct(xs)
    ensures Elements(xs) == Elements(fromAreas) + Elements(fromGroups)
  {
    var uniq := Elements(fromAreas);
    uniq := uniq + Elements(fromGroups);
    xs := ListOfSet(uniq);
  }

  /** `xs` is `new ArrayList<>(new HashSet<>(...))` of the identities `s`:
      each of them once, in an order the model leaves open. */
  predicate SetCopy(xs: seq<Person>, s: set<Person>)
  {
    Distinct(xs) && Elements(xs) == s
  }

  /** The coaches of the configured groups, when selected. */
  function GroupCoaches(selection: MemberSelection, members: CourseMembers): set<Person>
  {
    if selection.hasGroups then Elements(members.fromConfiguredGroups) else {}
  }

  /** The coaches of the configured areas, when selected. */
  function AreaCoaches(selection: MemberSelection, members: CourseMembers): set<Person>
  {
    if selection.hasAreas then Elements(members.fromConfiguredAreas) else {}
  }

  /** The course coaches as the course group manager returns them, when
      selected. */
  function CourseCoaches(selection: MemberSelection, members: CourseMembers): seq<Person>
  {
    if selection.course || selection.all then members.ofCourse else []
  }

  /** The coaches of all areas and all groups, for "all". */
  function AllCoaches(selection: MemberSelection, members: CourseMembers): set<Person>
  {
    if selection.all then Elements(members.fromAllAreas) + Elements(members.fromAllGroups) else {}
  }

  /** addCoaches: the selected sources one after the other; the coaches of
      the configured groups and areas are freed of duplicates, those of the
      course are not, and nothing is removed across sources, so a coach
      found by two sources is listed twice. */
  method AddCoaches(selection: MemberSelection, members: CourseMembers) returns (list: seq<Person>)
    ensures LaidOut(list, GroupCoaches(selection, members), AreaCoaches(selection, members),
                    CourseCoaches(selection, members), AllCoaches(selection, members))
    ensures Elements(list) == GroupCoaches(selection, members) + AreaCoaches(selection, members)
      + Elements(CourseCoaches(selection, members)) + AllCoaches(selection, members)
  {
    var fromGroups: seq<Person> := [];
    if selection.hasGroups {
      fromGroups := ListOfSet(Elements(members.fromConfiguredGroups));
    }
    assert SetCopy(fromGroups, GroupCoaches(selection, members)) && |fromGroups| == |GroupCoaches(selection, members)|;
    var fromAreas: seq<Person> := [];
    if selection.hasAreas {
      fromAreas := ListOfSet(Elements(members.fromConfiguredAreas));
    }
    assert SetCopy(fromAreas, AreaCoaches(selection, members)) && |fromAreas| == |AreaCoaches(selection, members)|;
    var fromCourse: seq<Person> := [];
    if selection.course || selection.all {
      fromCourse := members.ofCourse;
    }
    assert fromCourse == CourseCoaches(selection, members);
    var fromAll: seq<Person> := [];
    if selection.all {
      fromAll := RetrieveFromCourseGroups(members.fromAllAreas, members.fromAllGroups);
      DistinctLength(fromAll);
    }
    assert SetCopy(fromAll, AllCoaches(selection, members)) && |fromAll| == |AllCoaches(selection, members)|;
    list := fromGroups + fromAreas + fromCourse + fromAll;
    ConcatenatedCopies(fromGroups, fromAreas, fromCourse, fromAll, GroupCoaches(selection, members),
                       AreaCoaches(selection, members), AllCoaches(selection, members));
  }

  /** `l` is a copy of `g`, then a copy of `a`, then `c` as it is, then a
      copy of `u`. */
  predicate LaidOut(l: seq<Person>, g: set<Person>, a: set<Person>, c: seq<Person>, u: set<Person>)
  {
    |l| == |g| + |a| + |c| + |u|
    && SetCopy(l[..|g|], g)
    && SetCopy(l[|g|..|g| + |a|], a)
    && l[|g| + |a|..|g| + |a| + |c|] == c
    && SetCopy(l[|g| + |a| + |c|..], u)
  }

  /** Four parts, three of them set copies, laid one after the other. */
  lemma ConcatenatedCopies(w: seq<Person>, x: seq<Person>, y: seq<Person>, z: seq<Person>,
                           g: set<Person>, a: set<Person>, u: set<Person>)
    requires SetCopy(w, g) && |w| == |g|
    requires SetCopy(x, a) && |x| == |a|
    requires SetCopy(z, u) && |z| == |u|
    ensures LaidOut(w + x + y + z, g, a, y, u)
    ensures Elements(w + x + y + z) == g + a + Elements(y) + u
  {
    var l := w + x + y + z;
    FourParts(w, x, y, z);
    assert l[..|g|] == w;
    assert l[|g|..|g| + |a|] == x;
    assert l[|g| + |a| + |y|..] == z;
  }

  /** The four parts of a concatenation, and its elements. */
  lemma FourParts(w: seq<Person>, x: seq<Person>, y: seq<Person>, z: seq<Person>)
    ensures var l := w + x + y + z;
      |l| == |w| + |x| + |y| + |z|
      && l[..|w|] == w && l[|w|..|w| + |x|] == x && l[|w| + |x|..|w| + |x| + |y|] == y && l[|w| + |x| + |y|..] == z
    ensures Elements(w + x + y + z) == Elements(w) + Elements(x) + Elements(y) + Elements(z)
  {
    ElementsOfAppend(w, x);
    ElementsOfAppend(w + x, y);
    ElementsOfAppend(w + x + y, z);
  }

  /** A list without duplicates is as long as its set of elements. */
  lemma {:induction false} DistinctLength(xs: seq<Person>)
    requires Distinct(xs)
    ensures |Elements(xs)| == |xs|
  {
    if xs != [] {
      var init := xs[..|xs| - 1];
      DistinctLength(init);
      assert Elements(xs) == Elements(init) + {xs[|xs| - 1]};
    }
  }

  /** The sources addParticipants appends as they come. */
  function ListedParticipants(selection: MemberSelection, members: CourseMembers): seq<Person>
  {
    (if selection.hasGroups then members.fromConfiguredGroups else [])
    + (if selection.hasAreas then members.fromConfiguredAreas else [])
    + (if selection.course || selection.all then members.ofCourse else [])
  }

  /** addParticipants: like addCoaches, but only the union over all areas
      and groups is freed of duplicates; it comes last. */
  method AddParticipants(selection: MemberSelection, members: CourseMembers) returns (list: seq<Person>)
    ensures var prefix := ListedParticipants(selection, members);
      |prefix| <= |list| && list[..|prefix|] == prefix
    ensures !selection.all ==> list == ListedParticipants(selection, members)
    ensures var n := |ListedParticipants(selection, members)|;
      selection.all ==>
        (n <= |list| && Distinct(list[n..])
         && Elements(list[n..]) == Elements(members.fromAllAreas) + Elements(members.fromAllGroups))
  {
    list := [];
    if selection.hasGroups {
      list := list + members.fromConfiguredGroups;
    }
    if selection.hasAreas {
      list := list + members.fromConfiguredAreas;
    }
    if selection.course || selection.all {
      list := list + members.ofCourse;
    }
    assert list == ListedParticipants(selection, members);
    if selection.all {
      ghost var before := list;
      var participants := RetrieveFromCourseGroups(members.fromAllAreas, members.fromAllGroups);
      list := list + participants;
      assert list[|before|..] == participants;
      assert list[..|before|] == before;
    }
  }

  // ---------------------------------------------------------------------
  // Member entries, de-duplication and links

  /** The icons of a chat link. */
  datatype ChatIcon = StatusAvailable | StatusDnd | StatusUnavailable | StatusChat

  datatype ChatLink = ChatLink(visible: bool, icon: Option<ChatIcon>)

  /** A member entry: the identity's key and names, the number N in the
      names of its links (id_N, mail_N, chat_N), whether it has an e-mail
      link, and its chat link when chat is enabled. */
  datatype Member = Member(key: nat, firstName: Option<string>, lastName: Option<string>,
                           guiId: int, hasEmailLink: bool, chatLink: Option<ChatLink>)

  /** createMember and the links added right after it. */
  function NewMember(p: Person, guiId: int, withEmail: bool, chatEnabled: bool): Member
  {
    Member(p.key, p.firstName, p.lastName, guiId, withEmail,
           if chatEnabled then Some(ChatLink(true, None)) else None)
  }

  function KeysOf(xs: seq<Person>): set<nat>
  {
    set p | p in xs :: p.key
  }

  predicate KeysDistinct(xs: seq<Person>)
  {
    forall i, j :: 0 <= i < j < |xs| ==> xs[i].key != xs[j].key
  }

  /** The identities that get a member entry: with a duplicate catcher
      (`dedupe`), those whose key is neither in `seen` nor taken by an
      earlier identity of the list; without one, all of them. */
  function Survivors(ids: seq<Person>, dedupe: bool, seen: set<nat>): seq<Person>
  {
    if ids == [] then []
    else
      var kept := Survivors(ids[..|ids| - 1], dedupe, seen);
      var last := ids[|ids| - 1];
      if dedupe && (last.key in seen || last.key in KeysOf(kept)) then kept else kept + [last]
  }

  /** Without a catcher every identity is kept, in order. */
  lemma {:induction false} SurvivorsWithoutCatcher(ids: seq<Person>, seen: set<nat>)
    ensures Survivors(ids, false, seen) == ids
  {
    if ids != [] {
      SurvivorsWithoutCatcher(ids[..|ids| - 1], seen);
      assert ids == ids[..|ids| - 1] + [ids[|ids| - 1]];
    }
  }

  /** With a catcher, the kept identities come from the list, have distinct
      keys, and cover every key of the list that was not seen before. */
  lemma {:induction false} SurvivorsKeys(ids: seq<Person>, seen: set<nat>)
    ensures KeysDistinct(Survivors(ids, true, seen))
    ensures KeysOf(Survivors(ids, true, seen)) == KeysOf(ids) - seen
    ensures forall p :: p in Survivors(ids, true, seen) ==> p in ids
  {
    if ids != [] {
      var init := ids[..|ids| - 1];
      var last := ids[|ids| - 1];
      SurvivorsKeys(init, seen);
      var kept := Survivors(init, true, seen);
      assert ids == init + [last];
      assert KeysOf(ids) == KeysOf(init) + {last.key};
      if !(last.key in seen || last.key in KeysOf(kept)) {
        assert KeysOf(kept + [last]) == KeysOf(kept) + {last.key};
        forall i, j | 0 <= i < j < |kept + [last]|
          ensures (kept + [last])[i].key != (kept + [last])[j].key
        {
          if j == |kept| {
            assert (kept + [last])[i] in kept;
          }
        }
      }
    }
  }

  /** With a catcher, the first occurrence of every key not seen before is
      kept. */
  lemma {:induction false} SurvivorsKeepFirstOccurrences(ids: seq<Person>, seen: set<nat>)
    ensures forall j ::
      (0 <= j < |ids| && ids[j].key !in seen && (forall k :: 0 <= k < j ==> ids[k].key != ids[j].key))
      ==> ids[j] in Survivors(ids, true, seen)
  {
    if ids != [] {
      var init := ids[..|ids| - 1];
      var last := ids[|ids| - 1];
      SurvivorsKeepFirstOccurrences(init, seen);
      SurvivorsKeys(init, seen);
      var kept := Survivors(init, true, seen);
      forall j | 0 <= j < |ids| && ids[j].key !in seen && (forall k :: 0 <= k < j ==> ids[k].key != ids[j].key)
        ensures ids[j] in Survivors(ids, true, seen)
      {
        if j < |init| {
          assert init[j] == ids[j];
          assert forall k :: 0 <= k < j ==> init[k] == ids[k];
        } else {
          forall p | p in kept
            ensures p.key != last.key
          {
            var k :| 0 <= k < |init| && init[k] == p;
            assert ids[k] == p;
          }
        }
      }
    }
  }

  /** The keys of a list of member entries, in order. */
  function MemberKeys(members: seq<Member>): (keys: seq<nat>)
    ensures |keys| == |members|
    ensures forall i :: 0 <= i < |members| ==> keys[i] == members[i].key
  {
    if members == [] then [] else [members[0].key] + MemberKeys(members[1..])
  }

  /** The presence names Presence.available and Presence.dnd. */
  const PRESENCE_AVAILABLE: string := "available"
  const PRESENCE_DND: string := "dnd"

  /** The icon for a buddy status: null or "available", "dnd", anything
      else. */
  function StatusIcon(status: Option<string>): (icon: ChatIcon)
    ensures icon == StatusAvailable <==> status.None? || status == Some(PRESENCE_AVAILABLE)
    ensures icon == StatusDnd <==> status == Some(PRESENCE_DND)
    ensures icon != StatusChat
  {
    if status.None? || status.value == PRESENCE_AVAILABLE then StatusAvailable
    else if status.value == PRESENCE_DND then StatusDnd
    else StatusUnavailable
  }

  /** Map.get on the buddy status map. */
  function Lookup(statusMap: map<nat, string>, key: nat): Option<string>
  {
    if key in statusMap then Some(statusMap[key]) else None
  }

  /** No later entry has the same key: the entry the loadStatus map keeps. */
  predicate LastWithKey(keys: seq<nat>, i: int)
    requires 0 <= i < |keys|
  {
    forall j :: i < j < |keys| ==> keys[j] != keys[i]
  }

  /** The chat link of entry `i` after the status pass: the viewer's own
      link is hidden; without online status every other link shows the chat
      icon; with it, an offline member shows unavailable and an online one
      the icon of its buddy status, which the loadStatus map hands to the
      last entry of each key only. */
  function ChatLinkAfter(keys: seq<nat>, i: int, me: nat, onlineStatusEnabled: bool,
                         online: set<nat>, statusMap: map<nat, string>): ChatLink
    requires 0 <= i < |keys|
  {
    if keys[i] == me then ChatLink(false, None)
    else if !onlineStatusEnabled then ChatLink(true, Some(StatusChat))
    else if keys[i] !in online then ChatLink(true, Some(StatusUnavailable))
    else if LastWithKey(keys, i) then ChatLink(true, Some(StatusIcon(Lookup(statusMap, keys[i]))))
    else ChatLink(true, None)
  }

  /** The chat link after the first pass over the entries. */
  function ChatLinkFirstPass(keys: seq<nat>, i: int, me: nat, online: set<nat>): ChatLink
    requires 0 <= i < |keys|
  {
    if keys[i] == me then ChatLink(false, None)
    else if keys[i] in online then ChatLink(true, None)
    else ChatLink(true, Some(StatusUnavailable))
  }

  /** The chat link of entry `j` during the second loop of the status
      pass, once the keys in `loaded` have had their buddy status looked
      up. */
  function LinkWhileLoading(keys: seq<nat>, j: int, me: nat, loadStatus: map<nat, nat>, loaded: set<nat>,
                            online: set<nat>, statusMap: map<nat, string>): ChatLink
    requires 0 <= j < |keys|
  {
    if keys[j] in loadStatus && loadStatus[keys[j]] == j && keys[j] in loaded
    then ChatLink(true, Some(StatusIcon(Lookup(statusMap, keys[j]))))
    else ChatLinkFirstPass(keys, j, me, online)
  }

  /** Loading the status of one key changes the link of the one entry
      loadStatus points at for it, and no other. */
  lemma LoadOne(keys: seq<nat>, me: nat, loadStatus: map<nat, nat>, loaded: set<nat>, toLoad: nat,
                online: set<nat>, statusMap: map<nat, string>)
    requires toLoad in loadStatus && 0 <= loadStatus[toLoad] < |keys| && keys[loadStatus[toLoad]] == toLoad
    ensures LinkWhileLoading(keys, loadStatus[toLoad], me, loadStatus, loaded + {toLoad}, online, statusMap)
      == ChatLink(true, Some(StatusIcon(Lookup(statusMap, toLoad))))
    ensures forall j :: 0 <= j < |keys| && j != loadStatus[toLoad] ==>
      LinkWhileLoading(keys, j, me, loadStatus, loaded + {toLoad}, online, statusMap)
      == LinkWhileLoading(keys, j, me, loadStatus, loaded, online, statusMap)
  {
  }

  /** Once every key of loadStatus is loaded, each entry has its final
      chat link: the loadStatus map points, per online key other than the
      viewer's, at the last entry with that key. */
  lemma LoadedLinksAreFinal(keys: seq<nat>, me: nat, loadStatus: map<nat, nat>, online: set<nat>,
                            statusMap: map<nat, string>)
    requires forall j :: 0 <= j < |keys| ==>
      (keys[j] in loadStatus && loadStatus[keys[j]] == j <==> keys[j] != me && keys[j] in online && LastWithKey(keys, j))
    ensures forall j :: 0 <= j < |keys| ==>
      LinkWhileLoading(keys, j, me, loadStatus, loadStatus.Keys, online, statusMap)
      == ChatLinkAfter(keys, j, me, true, online, statusMap)
  {
  }

  /** With distinct keys, every online member other than the viewer gets
      the icon of its buddy status. */
  lemma DistinctKeysGetStatusIcons(keys: seq<nat>, i: int, me: nat, online: set<nat>, statusMap: map<nat, string>)
    requires 0 <= i < |keys|
    requires forall a, b :: 0 <= a < b < |keys| ==> keys[a] != keys[b]
    requires keys[i] != me && keys[i] in online
    ensures ChatLinkAfter(keys, i, me, true, online, statusMap).icon == Some(StatusIcon(Lookup(statusMap, keys[i])))
  {
  }

  /** The controller: the GUI id counter, the three member lists and the
      settings fixed at construction. */
  class MembersController {
    var count: int
    var ownerList: seq<Member>
    var coachList: seq<Member>
    var participantList: seq<Member>
    const deduplicateList: bool
    const chatEnabled: bool
    const canEmail: bool
    const onlineStatusEnabled: bool
    /** The viewer's identity key. */
    const me: nat

    constructor(deduplicateList: bool, chatEnabled: bool, canEmail: bool, onlineStatusEnabled: bool, me: nat)
      ensures count == 0 && ownerList == [] && coachList == [] && participantList == []
      ensures this.deduplicateList == deduplicateList && this.chatEnabled == chatEnabled
      ensures this.canEmail == canEmail && this.onlineStatusEnabled == onlineStatusEnabled && this.me == me
    {
      this.deduplicateList := deduplicateList;
      this.chatEnabled := chatEnabled;
      this.canEmail := canEmail;
      this.onlineStatusEnabled := onlineStatusEnabled;
      this.me := me;
      count := 0;
      ownerList, coachList, participantList := [], [], [];
    }

    /** createMemberLinks: one entry per surviving identity, each numbered
        with the incremented counter, then the chat status pass.
        `duplicateCatcher` is the shared key set, None when de-duplication
        is off; `online` and `statusMap` are what the session manager and
        the instant-messaging service report. */
    method CreateMemberLinks(identities: seq<Person>, duplicateCatcher: Option<set<nat>>, withEmail: bool,
                             online: set<nat>, statusMap: map<nat, string>)
      returns (members: seq<Member>, catcher: Option<set<nat>>)
      modifies this`count
      ensures var kept := Survivors(identities, duplicateCatcher.Some?,
                                    if duplicateCatcher.Some? then duplicateCatcher.value else {});
        |members| == |kept| && count == old(count) + |kept|
        && catcher == (if duplicateCatcher.Some? then Some(duplicateCatcher.value + KeysOf(kept)) else None)
        && forall i :: 0 <= i < |kept| ==>
             members[i].key == kept[i].key && members[i].firstName == kept[i].firstName
             && members[i].lastName == kept[i].lastName && members[i].guiId == old(count) + i + 1
             && members[i].hasEmailLink == withEmail
             && members[i].chatLink == (if chatEnabled
                  then Some(ChatLinkAfter(MemberKeys(members), i, me, onlineStatusEnabled, online, statusMap))
                  else None)
    {
      members, catcher := CreateMembers(identities, duplicateCatcher, withEmail);
      if chatEnabled {
        members := SetChatIcons(members, online, statusMap);
      }
    }

    /** The entry loop of createMemberLinks: skips the identities the
        catcher has seen, numbers the others with the incremented counter and
        adds their keys to the catcher. */
    method CreateMembers(identities: seq<Person>, duplicateCatcher: Option<set<nat>>, withEmail: bool)
      returns (members: seq<Member>, catcher: Option<set<nat>>)
      modifies this`count
      ensures var kept := Survivors(identities, duplicateCatcher.Some?,
                                    if duplicateCatcher.Some? then duplicateCatcher.value else {});
        |members| == |kept| && count == old(count) + |kept|
        && catcher == (if duplicateCatcher.Some? then Some(duplicateCatcher.value + KeysOf(kept)) else None)
        && forall i :: 0 <= i < |kept| ==>
             members[i] == NewMember(kept[i], old(count) + i + 1, withEmail, chatEnabled)
    {
      ghost var dedupe := duplicateCatcher.Some?;
      ghost var seen := if dedupe then duplicateCatcher.value else {};
      ghost var kept: seq<Person> := [];
      catcher := duplicateCatcher;
      members := [];
      assert seen + KeysOf(kept) == seen;
      for i := 0 to |identities|
        invariant kept == Survivors(identities[..i], dedupe, seen)
        invariant |members| == |kept| && count == old(count) + |kept|
        invariant catcher == (if dedupe then Some(seen + KeysOf(kept)) else None)
        invariant forall j :: 0 <= j < |kept| ==>
          members[j] == NewMember(kept[j], old(count) + j + 1, withEmail, chatEnabled)
      {
        var identity := identities[i];
        assert identities[..i + 1] == identities[..i] + [identity];
        assert identities[..i + 1][..i] == identities[..i];
        if catcher.Some? && identity.key in catcher.value {
          continue;
        }
        count := count + 1;
        members := members + [NewMember(identity, count, withEmail, chatEnabled)];
        assert KeysOf(kept + [identity]) == KeysOf(kept) + {identity.key};
        kept := kept + [identity];
        if catcher.Some? {
          catcher := Some(catcher.value + {identity.key});
          assert catcher.value == seen + KeysOf(kept);
        }
      }
      assert identities[..|identities|] == identities;
    }

    /** The chat status pass of createMemberLinks. */
    method SetChatIcons(members: seq<Member>, online: set<nat>, statusMap: map<nat, string>)
      returns (result: seq<Member>)
      requires forall i :: 0 <= i < |members| ==> members[i].chatLink == Some(ChatLink(true, None))
      ensures MemberKeys(result) == MemberKeys(members)
      ensures |result| == |members|
      ensures forall i :: 0 <= i < |members| ==>
        result[i] == members[i].(chatLink := Some(ChatLinkAfter(MemberKeys(members), i, me, onlineStatusEnabled, online, statusMap)))
    {
      var keys := MemberKeys(members);
      if onlineStatusEnabled {
        var loadStatus;
        result, loadStatus := MarkOnline(members, keys, online);
        if |loadStatus| > 0 {
          result := LoadStatusIcons(members, keys, result, loadStatus, online, statusMap);
        }
        LoadedLinksAreFinal(keys, me, loadStatus, online, statusMap);
      } else {
        result := ChatOnly(members, keys);
      }
      assert MemberKeys(result) == MemberKeys(members);
    }

    /** The first loop of the status pass: hides the viewer's own link,
        marks offline members unavailable and remembers, per key, the last
        entry of an online member. */
    method MarkOnline(members: seq<Member>, keys: seq<nat>, online: set<nat>)
      returns (result: seq<Member>, loadStatus: map<nat, nat>)
      requires forall i :: 0 <= i < |members| ==> members[i].chatLink == Some(ChatLink(true, None))
      requires keys == MemberKeys(members)
      ensures |result| == |members|
      ensures forall j :: 0 <= j < |members| ==>
        result[j] == members[j].(chatLink := Some(ChatLinkFirstPass(keys, j, me, online)))
      ensures forall j :: 0 <= j < |members| ==>
        (keys[j] in loadStatus && loadStatus[keys[j]] == j <==> keys[j] != me && keys[j] in online && LastWithKey(keys, j))
      ensures forall k :: k in loadStatus ==> 0 <= loadStatus[k] < |members| && keys[loadStatus[k]] == k
    {
      result := members;
      loadStatus := map[];
      for i := 0 to |members|
        invariant |result| == |members|
        invariant forall j :: 0 <= j < |members| ==>
          result[j] == if j < i then members[j].(chatLink := Some(ChatLinkFirstPass(keys, j, me, online))) else members[j]
        invariant forall k :: k in loadStatus ==>
          0 <= loadStatus[k] < i && keys[loadStatus[k]] == k && k != me && k in online
          && forall j :: loadStatus[k] < j < i ==> keys[j] != k
        invariant forall j :: 0 <= j < i && keys[j] != me && keys[j] in online ==> keys[j] in loadStatus
      {
        var member := members[i];
        if member.key == me {
          result := result[i := member.(chatLink := Some(ChatLink(false, None)))];
        } else if member.key in online {
          loadStatus := loadStatus[member.key := i];
        } else {
          result := result[i := member.(chatLink := Some(ChatLink(true, Some(StatusUnavailable))))];
        }
      }
    }

    /** The second loop of the status pass: the buddy status icon for the
        entry each key of loadStatus points at, keys in an order the model
        leaves open. */
    method LoadStatusIcons(members: seq<Member>, keys: seq<nat>, firstPass: seq<Member>,
                           loadStatus: map<nat, nat>, online: set<nat>, statusMap: map<nat, string>)
      returns (result: seq<Member>)
      requires |keys| == |members| && |firstPass| == |members|
      requires forall j :: 0 <= j < |members| ==>
        firstPass[j] == members[j].(chatLink := Some(ChatLinkFirstPass(keys, j, me, online)))
      requires forall k :: k in loadStatus ==> 0 <= loadStatus[k] < |members| && keys[loadStatus[k]] == k
      ensures |result| == |members|
      ensures forall j :: 0 <= j < |members| ==>
        result[j] == members[j].(chatLink := Some(LinkWhileLoading(keys, j, me, loadStatus, loadStatus.Keys, online, statusMap)))
    {
      result := firstPass;
      var statusToLoad := ListOfSet(loadStatus.Keys);
      ghost var loaded: set<nat> := {};
      assert Elements(statusToLoad[..0]) == {};
      for t := 0 to |statusToLoad|
        invariant |result| == |members|
        invariant loaded == Elements(statusToLoad[..t])
        invariant forall j :: 0 <= j < |members| ==>
          result[j] == members[j].(chatLink := Some(LinkWhileLoading(keys, j, me, loadStatus, loaded, online, statusMap)))
      {
        var toLoad := statusToLoad[t];
        assert toLoad in Elements(statusToLoad);
        var index := loadStatus[toLoad];
        result := result[index := members[index].(chatLink := Some(ChatLink(true, Some(StatusIcon(Lookup(statusMap, toLoad))))))];
        LoadOne(keys, me, loadStatus, loaded, toLoad, online, statusMap);
        loaded := loaded + {toLoad};
        assert statusToLoad[..t + 1] == statusToLoad[..t] + [toLoad];
        ElementsOfAppend(statusToLoad[..t], [toLoad]);
      }
      assert statusToLoad[..|statusToLoad|] == statusToLoad;
    }

    /** The status pass without online status: the chat icon for everybody
        but the viewer, whose link is hidden. */
    method ChatOnly(members: seq<Member>, keys: seq<nat>) returns (result: seq<Member>)
      requires keys == MemberKeys(members)
      ensures |result| == |members|
      ensures forall j :: 0 <= j < |members| ==>
        result[j] == members[j].(chatLink := Some(ChatLinkAfter(keys, j, me, false, {}, map[])))
    {
      result := members;
      for i := 0 to |members|
        invariant |result| == |members|
        invariant forall j :: 0 <= j < |members| ==>
          result[j] == if j < i then members[j].(chatLink := Some(ChatLinkAfter(keys, j, me, false, {}, map[])))
            else members[j]
      {
        var member := members[i];
        if member.key == me {
          result := result[i := member.(chatLink := Some(ChatLink(false, None)))];
        } else {
          result := result[i := member.(chatLink := Some(ChatLink(true, Some(StatusChat))))];
        }
      }
    }

    /** The three member lists of initForm, built with one shared duplicate
        catcher (when de-duplication is on) from the owner, coach and
        participant lists in that order; the lists arrive sorted by the
        identity comparator. */
    method InitForm(owners: seq<Person>, coaches: seq<Person>, participants: seq<Person>,
                    online: set<nat>, statusMap: map<nat, string>)
      modifies this
      ensures var all := ownerList + coachList + participantList;
        count == old(count) + |all|
        && forall i :: 0 <= i < |all| ==> all[i].guiId == old(count) + i + 1
      ensures !deduplicateList ==>
        |ownerList| == |owners| && |coachList| == |coaches| && |participantList| == |participants|
        && (forall i :: 0 <= i < |owners| ==> ownerList[i].key == owners[i].key)
        && (forall i :: 0 <= i < |coaches| ==> coachList[i].key == coaches[i].key)
        && (forall i :: 0 <= i < |participants| ==> participantList[i].key == participants[i].key)
      ensures deduplicateList ==>
        var all := ownerList + coachList + participantList;
        (forall i, j :: 0 <= i < j < |all| ==> all[i].key != all[j].key)
        && (forall m :: m in coachList ==> m.key !in KeysOf(owners))
        && (forall m :: m in participantList ==> m.key !in KeysOf(owners) + KeysOf(coaches))
        && MemberKeySet(all) == KeysOf(owners) + KeysOf(coaches) + KeysOf(participants)
    {
      var catcher: Option<set<nat>> := if deduplicateList then Some({}) else None;
      ghost var count0 := count;
      ghost var s1 := Survivors(owners, deduplicateList, {});
      ownerList, catcher := CreateMemberLinks(owners, catcher, canEmail, online, statusMap);
      ghost var count1 := count;
      ghost var seen2 := if deduplicateList then catcher.value else {};
      ghost var s2 := Survivors(coaches, deduplicateList, seen2);
      coachList, catcher := CreateMemberLinks(coaches, catcher, canEmail, online, statusMap);
      ghost var count2 := count;
      ghost var seen3 := if deduplicateList then catcher.value else {};
      ghost var s3 := Survivors(participants, deduplicateList, seen3);
      participantList, catcher := CreateMemberLinks(participants, catcher, canEmail, online, statusMap);
      ConsecutiveIds(ownerList, coachList, participantList, count0, count1, count2);
      if !deduplicateList {
        SurvivorsWithoutCatcher(owners, {});
        SurvivorsWithoutCatcher(coaches, {});
        SurvivorsWithoutCatcher(participants, {});
      } else {
        SurvivorsKeys(owners, {});
        SurvivorsKeys(coaches, seen2);
        SurvivorsKeys(participants, seen3);
        assert {} + KeysOf(s1) == KeysOf(s1) && KeysOf(owners) - {} == KeysOf(owners);
        MergedKeys(ownerList, coachList, participantList, s1, s2, s3,
                   KeysOf(owners), KeysOf(coaches), KeysOf(participants));
      }
    }
  }

  /** Three lists numbered one after the other with a running counter are
      numbered consecutively as one list. */
  lemma ConsecutiveIds(m1: seq<Member>, m2: seq<Member>, m3: seq<Member>, c0: int, c1: int, c2: int)
    requires c1 == c0 + |m1| && c2 == c1 + |m2|
    requires forall i :: 0 <= i < |m1| ==> m1[i].guiId == c0 + i + 1
    requires forall i :: 0 <= i < |m2| ==> m2[i].guiId == c1 + i + 1
    requires forall i :: 0 <= i < |m3| ==> m3[i].guiId == c2 + i + 1
    ensures forall i :: 0 <= i < |m1 + m2 + m3| ==> (m1 + m2 + m3)[i].guiId == c0 + i + 1
  {
    forall i | 0 <= i < |m1 + m2 + m3|
      ensures (m1 + m2 + m3)[i].guiId == c0 + i + 1
    {
      if i >= |m1| + |m2| {
        assert (m1 + m2 + m3)[i] == m3[i - |m1| - |m2|];
      } else if i >= |m1| {
        assert (m1 + m2 + m3)[i] == m2[i - |m1|];
      }
    }
  }

  /** The keys of a list of member entries, as a set. */
  function MemberKeySet(ms: seq<Member>): set<nat>
  {
    set m | m in ms :: m.key
  }

  /** The key set of member entries made from `kept`, key by key. */
  lemma SameKeys(ms: seq<Member>, kept: seq<Person>)
    requires |ms| == |kept| && forall i :: 0 <= i < |kept| ==> ms[i].key == kept[i].key
    ensures MemberKeySet(ms) == KeysOf(kept)
    ensures forall m :: m in ms ==> m.key in KeysOf(kept)
  {
    forall k | k in KeysOf(kept)
      ensures k in MemberKeySet(ms)
    {
      var i :| 0 <= i < |kept| && kept[i].key == k;
      assert ms[i] in ms;
    }
    forall m | m in ms
      ensures m.key in KeysOf(kept)
    {
      assert m.key in MemberKeySet(ms);
    }
  }

  lemma MemberKeySetAppend(a: seq<Member>, b: seq<Member>)
    ensures MemberKeySet(a + b) == MemberKeySet(a) + MemberKeySet(b)
  {
    assert forall m :: m in a + b <==> m in a || m in b;
  }

  /** Three de-duplicated lists, each keeping keys the ones before it have
      not taken, hold no key twice. */
  lemma MergedKeysDistinct(m1: seq<Member>, m2: seq<Member>, m3: seq<Member>, o: set<nat>, c: set<nat>, p: set<nat>)
    requires forall i, j :: 0 <= i < j < |m1| ==> m1[i].key != m1[j].key
    requires forall i, j :: 0 <= i < j < |m2| ==> m2[i].key != m2[j].key
    requires forall i, j :: 0 <= i < j < |m3| ==> m3[i].key != m3[j].key
    requires forall m :: m in m1 ==> m.key in o
    requires forall m :: m in m2 ==> m.key in c - o
    requires forall m :: m in m3 ==> m.key in p - (o + c)
    ensures forall i, j :: 0 <= i < j < |m1 + m2 + m3| ==> (m1 + m2 + m3)[i].key != (m1 + m2 + m3)[j].key
  {
    ConcatDistinct(m1, m2);
    forall x, y | x in m1 + m2 && y in m3 ensures x.key != y.key {
      assert x in m1 || x in m2;
    }
    ConcatDistinct(m1 + m2, m3);
  }

  /** Three de-duplicated lists, each keeping keys the ones before it have
      not taken, together hold every key once. */
  lemma MergedKeys(m1: seq<Member>, m2: seq<Member>, m3: seq<Member>,
                   s1: seq<Person>, s2: seq<Person>, s3: seq<Person>, o: set<nat>, c: set<nat>, p: set<nat>)
    requires |m1| == |s1| && forall i :: 0 <= i < |s1| ==> m1[i].key == s1[i].key
    requires |m2| == |s2| && forall i :: 0 <= i < |s2| ==> m2[i].key == s2[i].key
    requires |m3| == |s3| && forall i :: 0 <= i < |s3| ==> m3[i].key == s3[i].key
    requires KeysDistinct(s1) && KeysDistinct(s2) && KeysDistinct(s3)
    requires KeysOf(s1) == o && KeysOf(s2) == c - o && KeysOf(s3) == p - (o + c)
    ensures var all := m1 + m2 + m3;
      (forall i, j :: 0 <= i < j < |all| ==> all[i].key != all[j].key)
      && (forall m :: m in m2 ==> m.key !in o)
      && (forall m :: m in m3 ==> m.key !in o + c)
      && MemberKeySet(all) == o + c + p
  {
    SameKeys(m1, s1);
    SameKeys(m2, s2);
    SameKeys(m3, s3);
    MergedKeysDistinct(m1, m2, m3, o, c, p);
    MemberKeySetAppend(m1, m2);
    MemberKeySetAppend(m1 + m2, m3);
  }

  /** Two lists of entries with distinct keys and no key in common make one
      list with distinct keys. */
  lemma ConcatDistinct(a: seq<Member>, b: seq<Member>)
    requires forall i, j :: 0 <= i < j < |a| ==> a[i].key != a[j].key
    requires forall i, j :: 0 <= i < j < |b| ==> b[i].key != b[j].key
    requires forall x, y :: x in a && y in b ==> x.key != y.key
    ensures forall i, j :: 0 <= i < j < |a + b| ==> (a + b)[i].key != (a + b)[j].key
  {
    forall i, j | 0 <= i < j < |a + b|
      ensures (a + b)[i].key != (a + b)[j].key
    {
      if i < |a| && j >= |a| {
        assert (a + b)[i] in a && (a + b)[j] in b;
      } else if i >= |a| {
        assert (a + b)[i] == b[i - |a|] && (a + b)[j] == b[j - |a|];
      }
    }
  }
}
