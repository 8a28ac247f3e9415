# OpenOLAT rule cores in Dafny

This project models six pieces of OpenOLAT in Dafny: five controllers and services, plus the identity-and-role rules of the base security manager. These are the parts that carry rules rather than plumbing. The database, the module configuration and the form widgets are replaced by sets, maps and small datatypes. Each modelled operation has a contract that ties it to a specification function or to the state it leaves, and the properties the source promises are proved as lemmas about those functions. Where a contract is weaker than the source, the section "Left out" says so.

- **Base security** (`common.dfy`, `fuzzy_query.dfy`, `security_roles.dfy`, `identity_query.dfy`). This covers:
  - the LIKE-pattern normaliser of the power search;
  - the derivation of role flags from role names;
  - the role diff that adds or removes organisation memberships;
  - identity visibility;
  - the 500-element batching of the short-identity lookups;
  - the assembly of the power-search query text.

  Query text is modelled as a sequence of fragments, one per appended piece. `CreateIdentitiesByPowerQuery` builds that sequence step by step, as the source's `StringBuilder` does, and is proved equal to the specification function `PowerQuery`.
- **Quality service** (`quality_service.dfy`). This covers:
  - the e-mail trigger over rubric ratings;
  - the receiver union of the report mails;
  - the status transition that mails only when a collection enters FINISHED;
  - the status sweeps;
  - the reconciliation of a data collection's organisation relations;
  - idempotent participation creation;
  - the deletion vetoes.

  The persistent state is the class `QualityStore`.
- **Members course node** (`members_run.dfy`). This covers:
  - the identity comparator;
  - the coach and participant sources;
  - the e-mail permission;
  - member-link creation with its running GUI counter and shared duplicate catcher;
  - the chat-status icons.

  The controller is the class `MembersController`.
- **Structure course node** (`module_configuration.dfy`, `st_course_node.dfy`). This covers:
  - the configuration defaults of a new node;
  - the versioned upgrade v1 → v2 → v3 → v4;
  - the delegate-display test;
  - the config-validity check;
  - the score-calculator conditions;
  - the ordered list of active condition expressions.

  The node is the class `STCourseNode`.
- **User search form** (`user_search_form.dfy`). This covers the mapping from the form's items to `SearchIdentityParams`:
  - the deleted-user `*` prefix;
  - blank values mapped to null;
  - the `noAuth`/`OAuth` provider expansion;
  - role keys;
  - form state save and restore.
- **Learning-path node configuration** (`learning_path_node_config.dfy`). This covers:
  - the bounded-integer validator, with Java's `Integer.parseInt`;
  - the controller-configuration builder;
  - the trigger options in their fixed order;
  - score-cut visibility;
  - the duration-mandatory rule;
  - form validation;
  - saving the form into the module configuration.

## Model

| member | source | states |
|---|---|---|
| FuzzyQuery.MakeFuzzyQueryString | src/main/java/org/olat/basesecurity/BaseSecurityManager.java:1312-1324 | a quoted input loses its quotes, any other gets `*` turned into `%` and a trailing `%`; then underscores are escaped |
| FuzzyQuery.EscapeUnderscores | src/main/java/org/olat/basesecurity/BaseSecurityManager.java:1322 | `replace("_", "\\_")`: every underscore gets a backslash in front |
| FuzzyQuery.FuzzyQuotedStripsQuotes | src/main/java/org/olat/basesecurity/BaseSecurityManager.java:1314-1315 | a quoted input (longer than one character, `"` at both ends) reads back as the text between the quotes: no `%` appended, `*` kept |
| FuzzyQuery.FuzzyUnquotedAppendsWildcard | src/main/java/org/olat/basesecurity/BaseSecurityManager.java:1316-1319 | an unquoted input reads back as the input with every `*` turned into `%` and a `%` appended; the pattern ends with `%` and holds no `*` |
| FuzzyQuery.FuzzyEscapesUnderscores | src/main/java/org/olat/basesecurity/BaseSecurityManager.java:1322 | in both branches every `_` of the pattern is preceded by a backslash, and the pattern holds a `_` exactly when the (unquoted) input does |
| FuzzyQuery.UnescapeEscape | src/main/java/org/olat/basesecurity/BaseSecurityManager.java:1322 | escaping underscores loses nothing: unescaping gives the original text back |
| FuzzyQuery.EscapedHasNoBareUnderscore | src/main/java/org/olat/basesecurity/BaseSecurityManager.java:1322 | after `replace("_", "\\_")` no underscore is unescaped |
| FuzzyQuery.EscapeKeepsCharacters | src/main/java/org/olat/basesecurity/BaseSecurityManager.java:1322 | escaping keeps exactly the characters of the input, apart from the inserted backslashes |
| FuzzyQuery.StarsToPercent | src/main/java/org/olat/basesecurity/BaseSecurityManager.java:1318 | `replace('*', '%')`: same length, `*` becomes `%`, every other character is kept |
| SecurityRoles.GetRoles | src/main/java/org/olat/basesecurity/BaseSecurityManager.java:135-150 | the role flags derived from the organisation roles an identity holds and the invitation store |
| SecurityRoles.RoleTarget | src/main/java/org/olat/basesecurity/BaseSecurityManager.java:168-211 | whether updateRoles wants the membership of one role, from the role flags |
| SecurityRoles.AdminImpliesManagementRoles | src/main/java/org/olat/basesecurity/BaseSecurityManager.java:138-144 | admin holds iff the administrator role is held, and implies author, group, user, pool and curriculum manager; resource manager holds iff its own role is held |
| SecurityRoles.AdminAloneIsNoResourceManager | src/main/java/org/olat/basesecurity/BaseSecurityManager.java:138-142 | the administrator role alone gives admin but not resource manager |
| SecurityRoles.GuestAndInviteeExcludeUser | src/main/java/org/olat/basesecurity/BaseSecurityManager.java:146-149 | guest-only holds iff guest is held and user is not; invitee holds iff the invitation store says so and user is not held |
| SecurityRoles.RoleTargetRules | src/main/java/org/olat/basesecurity/BaseSecurityManager.java:172-209 | the user target is the negation of the guest target; guest-only or invitee switches every privileged target off; resource manager also grants author |
| SecurityRoles.RoleDiff | src/main/java/org/olat/basesecurity/BaseSecurityManager.java:213-223 | a membership appears only on a false-to-true change and disappears only on a true-to-false change; otherwise nothing changes; starting from the recorded state, the result is the new target |
| SecurityRoles.ApplyRoleChangesEffect | src/main/java/org/olat/basesecurity/BaseSecurityManager.java:168-211 | after the role updates, a membership of this identity and organisation for a handled role is decided by the role diff; every other membership is untouched |
| SecurityRoles.UpdateRolesReachesTargets | src/main/java/org/olat/basesecurity/BaseSecurityManager.java:168-211 | when the roles read at the start match the memberships, afterwards the identity holds a managed role iff `roles` asks for it |
| SecurityRoles.OrganisationMemberships.AddMember | src/main/java/org/olat/basesecurity/BaseSecurityManager.java:216 | adds exactly the one membership |
| SecurityRoles.OrganisationMemberships.RemoveMember | src/main/java/org/olat/basesecurity/BaseSecurityManager.java:220 | removes exactly the one membership |
| SecurityRoles.OrganisationMemberships.UpdateRolesInSecurityGroup | src/main/java/org/olat/basesecurity/BaseSecurityManager.java:213-224 | the membership table becomes the role diff of one role |
| SecurityRoles.OrganisationMemberships.UpdateRoles | src/main/java/org/olat/basesecurity/BaseSecurityManager.java:168-211 | the membership table becomes the role diff of every managed role, against the roles held before the call |
| IdentityQuery.IsIdentityVisible | src/main/java/org/olat/basesecurity/BaseSecurityManager.java:1279-1283 | a non-null identity with a status below STATUS_VISIBLE_LIMIT |
| IdentityQuery.VisibilityByStatus | src/main/java/org/olat/basesecurity/BaseSecurityManager.java:1279-1283 | a null identity or status is invisible; otherwise visible iff the status is below STATUS_VISIBLE_LIMIT (permanent and active are, login-denied and deleted are not) |
| IdentityQuery.Select | src/main/java/org/olat/basesecurity/BaseSecurityManager.java:470 | one `in (:names)` query returns exactly the rows whose column value is among the values |
| IdentityQuery.SelectAllFindsAll | src/main/java/org/olat/basesecurity/BaseSecurityManager.java:477-489 | running the query batch by batch finds exactly the rows whose value lies in the concatenated batches |
| IdentityQuery.LoadInBatches | src/main/java/org/olat/basesecurity/BaseSecurityManager.java:477-489 | the batches are consecutive, non-empty, at most 500 long, all but the last exactly 500; they concatenate to the input; there are ceil(n/500) of them; the result is the rows found batch by batch |
| IdentityQuery.BatchCount | src/main/java/org/olat/basesecurity/BaseSecurityManager.java:477-489 | k batches of 500 cover n values exactly when k = ceil(n/500) |
| IdentityQuery.FindShortIdentitiesByName | src/main/java/org/olat/basesecurity/BaseSecurityManager.java:467-491 | a null or empty collection gives no rows and no query; otherwise batches of at most 500 concatenate to the names, and a row is found iff its name is among them |
| IdentityQuery.FindShortIdentitiesByKey | src/main/java/org/olat/basesecurity/BaseSecurityManager.java:493-516 | the same as by name, over identity keys |
| IdentityQuery.KeysOfKindSplits | src/main/java/org/olat/basesecurity/BaseSecurityManager.java:1093-1100 | every user-property key goes to exactly one group: e-mail keys (the lower-cased key contains "email") or the others |
| IdentityQuery.WhereIffFilters | src/main/java/org/olat/basesecurity/BaseSecurityManager.java:1058-1062 | " where " is in the query iff login, properties, identity keys, a creation date, auth providers, status or managed is set |
| IdentityQuery.LoginDatesNeedAnotherFilter | src/main/java/org/olat/basesecurity/BaseSecurityManager.java:1058-1198 | without another filter the last-login clauses never reach the query, because they sit inside the where block whose guard does not test them |
| IdentityQuery.StatusComparison | src/main/java/org/olat/basesecurity/BaseSecurityManager.java:1200-1210 | the query compares the status with `<` iff the status is STATUS_VISIBLE_LIMIT and with `=` iff another status is set |
| IdentityQuery.StatusPresentWhenSet | src/main/java/org/olat/basesecurity/BaseSecurityManager.java:1200-1210 | a set status always reaches the query |
| IdentityQuery.QueryPieces | src/main/java/org/olat/basesecurity/BaseSecurityManager.java:1033-1211 | every piece of the query is a head piece, the where keyword, or part of the login/property group or of a filter clause, and the latter two occur only under a where |
| IdentityQuery.AndChainIsJoin | src/main/java/org/olat/basesecurity/BaseSecurityManager.java:1151-1288 | the filters appended through checkAnd are the clauses separated by single " and " pieces, with one leading " and " when the login or property group came before |
| IdentityQuery.ClauseShapes | src/main/java/org/olat/basesecurity/BaseSecurityManager.java:1151-1210 | every filter clause is one of the eight the source can append, and the provider and status clauses only when those filters are set |
| IdentityQuery.ClausePieces | src/main/java/org/olat/basesecurity/BaseSecurityManager.java:1151-1210 | no filter clause holds the where keyword or an " and "; a status comparison comes only from the status filter |
| IdentityQuery.UserPartPieces | src/main/java/org/olat/basesecurity/BaseSecurityManager.java:1067-1147 | the login/property group is made of login and property clauses, brackets and the " and "/" or " separators only |
| IdentityQuery.OtherPartPieces | src/main/java/org/olat/basesecurity/BaseSecurityManager.java:1126-1300 | the non-e-mail properties are joined by " and " for an intersection search and " or " otherwise |
| IdentityQuery.EmailAlternativesPieces | src/main/java/org/olat/basesecurity/BaseSecurityManager.java:1108-1119 | the e-mail alternatives are property clauses joined by " or " |
| IdentityQuery.AuthTermsPieces | src/main/java/org/olat/basesecurity/BaseSecurityManager.java:1170-1178 | the provider alternatives are "auth is null" or provider comparisons joined by " or " |
| IdentityQuery.CheckAnd | src/main/java/org/olat/basesecurity/BaseSecurityManager.java:1285-1288 | appends " and " exactly when one is needed, and from then on one is |
| IdentityQuery.CheckIntersectionInUserProperties | src/main/java/org/olat/basesecurity/BaseSecurityManager.java:1291-1300 | appends " and " (intersection) or " or " exactly when a clause came before, and from then on one is needed |
| IdentityQuery.SplitProperties | src/main/java/org/olat/basesecurity/BaseSecurityManager.java:1093-1100 | the loop yields the e-mail keys and the other keys in iteration order |
| IdentityQuery.AppendEmailProperties | src/main/java/org/olat/basesecurity/BaseSecurityManager.java:1103-1123 | appends the e-mail group (bracketed when more than one) and records that a clause came before |
| IdentityQuery.AppendOtherProperties | src/main/java/org/olat/basesecurity/BaseSecurityManager.java:1126-1138 | appends the other property clauses, each after a separator unless it is the first clause |
| IdentityQuery.AppendAuthProviders | src/main/java/org/olat/basesecurity/BaseSecurityManager.java:1170-1178 | appends one alternative per provider, "auth is null" for a null one, separated by " or " |
| IdentityQuery.AppendUserPart | src/main/java/org/olat/basesecurity/BaseSecurityManager.java:1063-1147 | appends the login/property group and reports that an " and " is needed iff login or properties are set |
| IdentityQuery.AppendAndClauses | src/main/java/org/olat/basesecurity/BaseSecurityManager.java:1151-1210 | appends the set filters through checkAnd, in the order the source tests them |
| IdentityQuery.PowerQuery | src/main/java/org/olat/basesecurity/BaseSecurityManager.java:1026-1211 | the query text as a sequence of fragments: head, joins, and under a where the login/property group and the filter clauses |
| IdentityQuery.CreateIdentitiesByPowerQuery | src/main/java/org/olat/basesecurity/BaseSecurityManager.java:1026-1211 | the text built step by step is the specification query `PowerQuery`, which the lemmas above characterise |
| QualityService.Fires | src/main/java/org/olat/modules/quality/manager/QualityServiceImpl.java:267-283 | the trigger fires: `always`, or some rating that the trigger reacts to |
| QualityService.ContainsTrigger | src/main/java/org/olat/modules/quality/manager/QualityServiceImpl.java:267-283 | `always` fires; `insufficientNeutral` fires iff some rating is NEUTRAL or INSUFFICIENT; `insufficient` iff some rating is INSUFFICIENT; with no statistics only `always` fires |
| QualityService.ReceiversAreUnion | src/main/java/org/olat/modules/quality/manager/QualityServiceImpl.java:254-262 | a receiver is mailed iff one of the report accesses whose trigger fires lists it |
| QualityService.CollectReceivers | src/main/java/org/olat/modules/quality/manager/QualityServiceImpl.java:254-262 | the loop collects exactly that union |
| QualityService.QualityStore.constructor | src/main/java/org/olat/modules/quality/manager/QualityServiceImpl.java:101 | a store with the given statuses and nothing else |
| QualityService.QualityStore.SendReportAccessMails | src/main/java/org/olat/modules/quality/manager/QualityServiceImpl.java:248-265 | hands one mail with the receiver union to the mailer and changes nothing else |
| QualityService.QualityStore.UpdateDataCollectionStatus | src/main/java/org/olat/modules/quality/manager/QualityServiceImpl.java:233-246 | stores the new status; a report mail is sent iff the new status is FINISHED and the previous one was not; every other field of the store is unchanged |
| QualityService.QualityStore.StopDataCollections | src/main/java/org/olat/modules/quality/manager/QualityServiceImpl.java:215-221 | every pending-start collection is RUNNING, the others keep their status, no mail is sent, and every other field of the store is unchanged |
| QualityService.QualityStore.StartDataCollection | src/main/java/org/olat/modules/quality/manager/QualityServiceImpl.java:224-230 | every pending-deadline collection is FINISHED, the others keep their status, and the mails sent are those of `FinishMails`; every other field of the store is unchanged |
| QualityService.FinishMailsAreUnfinished | src/main/java/org/olat/modules/quality/manager/QualityServiceImpl.java:224-240 | a deadline sweep mails exactly the swept collections that were not finished yet |
| QualityService.NoMailsForFinished | src/main/java/org/olat/modules/quality/manager/QualityServiceImpl.java:224-240 | a second sweep over collections that are already finished sends no mail |
| QualityService.QualityStore.UpdateDataCollectionOrganisations | src/main/java/org/olat/modules/quality/manager/QualityServiceImpl.java:370-391 | the relations become `Reconciled` of the old ones and the key counter advances once per created relation; a created relation belongs to this collection and a listed organisation the collection had no relation to; every listed organisation ends with a relation and so has a deletion veto; the deletion targets, statuses, mails, statistics, report accesses and participations are untouched |
| QualityService.QualityStore.DeleteUnlistedRelations | src/main/java/org/olat/modules/quality/manager/QualityServiceImpl.java:372-383 | the first loop deletes exactly the collection's relations to unlisted organisations and returns exactly the listed organisations that keep a relation; every other field of the store is unchanged |
| QualityService.Reconciled | src/main/java/org/olat/modules/quality/manager/QualityServiceImpl.java:370-391 | the relations after the call: the old ones minus the obsolete ones, plus one new relation per list entry whose organisation was not kept |
| QualityService.ReconciledEffect | src/main/java/org/olat/modules/quality/manager/QualityServiceImpl.java:370-391 | other collections keep their relations; a relation of this collection survives iff its organisation is listed; every listed organisation is related; a new relation is only for a listed organisation with no relation before; one relation per missing list entry |
| QualityService.NewRelationsShape | src/main/java/org/olat/modules/quality/manager/QualityServiceImpl.java:385-389 | a created relation is for this collection and a listed, unkept organisation, with a key from the range drawn |
| QualityService.NewRelationsCover | src/main/java/org/olat/modules/quality/manager/QualityServiceImpl.java:385-389 | every listed organisation that was not kept gets a created relation |
| QualityService.NewRelationsCount | src/main/java/org/olat/modules/quality/manager/QualityServiceImpl.java:385-389 | exactly one relation per missing list entry is created (an organisation listed twice without a relation gets two), and none when all are kept |
| QualityService.ReconcileIdempotent | src/main/java/org/olat/modules/quality/manager/QualityServiceImpl.java:370-391 | a second call with the same list changes no relation |
| QualityService.QualityStore.AddParticipations | src/main/java/org/olat/modules/quality/manager/QualityServiceImpl.java:394-405 | one participation per executor, in order; existing participations are kept, new ones only for this survey's executors, and nothing is created when all exist; every other field of the store is unchanged |
| QualityService.QualityStore.DeleteOrganisationData | src/main/java/org/olat/modules/quality/manager/QualityServiceImpl.java:543-547 | no veto iff no data collection, no context relation and no data-collection relation points at the organisation |
| QualityService.QualityStore.DeleteCurriculumData | src/main/java/org/olat/modules/quality/manager/QualityServiceImpl.java:550-553 | no veto iff no data collection and no context relation points at the curriculum |
| QualityService.QualityStore.DeleteCurriculumElementData | src/main/java/org/olat/modules/quality/manager/QualityServiceImpl.java:556-560 | no veto iff no data collection and no context relation points at the element, and it has no contexts |
| QualityService.ReconcileOrganisationVeto | src/main/java/org/olat/modules/quality/manager/QualityServiceImpl.java:370-391 | after reconciling, every listed organisation is vetoed from deletion; an unlisted organisation that only this collection was related to is then vetoed only by a data collection or context pointing at it |
| MembersRun.CompareIgnoreCaseAntisymmetric | src/main/java/org/olat/course/nodes/members/MembersCourseNodeRunController.java:474 | `compareToIgnoreCase(a, b) == -compareToIgnoreCase(b, a)` |
| MembersRun.CompareIgnoreCaseZero | src/main/java/org/olat/course/nodes/members/MembersCourseNodeRunController.java:474-475 | a tie means the two strings agree up to (ASCII) case |
| MembersRun.CompareIgnoreCaseTransitive | src/main/java/org/olat/course/nodes/members/MembersCourseNodeRunController.java:474 | the case-insensitive comparison is transitive |
| MembersRun.CompareAsWritten | src/main/java/org/olat/course/nodes/members/MembersCourseNodeRunController.java:466-483 | the comparator exactly as written, null on the left compares below even against null |
| MembersRun.ComparatorAsWrittenNotReflexive | src/main/java/org/olat/course/nodes/members/MembersCourseNodeRunController.java:466-483 | as written, `compare(null, null)` and `compare(x, x)` for an identity without a first name are -1, so the comparator is not antisymmetric |
| MembersRun.Compare | src/main/java/org/olat/course/nodes/members/MembersCourseNodeRunController.java:466-483 | two nulls tie; null identities and null last names sort first; differing last names decide case-insensitively; equal last names (null or case-insensitively equal) hand over to the first names, compared the same way |
| MembersRun.CompareAgreesWithAsWritten | src/main/java/org/olat/course/nodes/members/MembersCourseNodeRunController.java:466-483 | the corrected comparator agrees with the one as written wherever the latter does not compare two nulls |
| MembersRun.CompareAntisymmetric | src/main/java/org/olat/course/nodes/members/MembersCourseNodeRunController.java:466-483 | the corrected comparator is antisymmetric and every identity ties with itself |
| MembersRun.CompareTransitive | src/main/java/org/olat/course/nodes/members/MembersCourseNodeRunController.java:466-483 | the corrected comparator is transitive |
| MembersRun.CanEmail | src/main/java/org/olat/course/nodes/members/MembersCourseNodeRunController.java:148-149 | e-mail is allowed iff the function is ALL or the user is admin or coach; an unset function defaults to coach-and-admin |
| Common.ListOfSet | src/main/java/org/olat/course/nodes/members/MembersCourseNodeRunController.java:540-549 | `new ArrayList<>(new HashSet<>(...))`: a duplicate-free list of exactly the set's elements |
| MembersRun.RetrieveFromCourseGroups | src/main/java/org/olat/course/nodes/members/MembersCourseNodeRunController.java:539-550 | the identities of all areas and all groups, without duplicates |
| MembersRun.AddCoaches | src/main/java/org/olat/course/nodes/members/MembersCourseNodeRunController.java:493-520 | the list is the configured groups' coaches (each once), then the configured areas' coaches (each once), then the course coaches as returned, then for "all" the union over all areas and groups (each once), each part only when selected; no de-duplication across parts, so a coach found twice is listed twice |
| MembersRun.DistinctLength | src/main/java/org/olat/course/nodes/members/MembersCourseNodeRunController.java:523-531 | a list freed of duplicates is as long as its set of identities |
| MembersRun.AddParticipants | src/main/java/org/olat/course/nodes/members/MembersCourseNodeRunController.java:553-580 | the selected sources in order, then, for "all", the duplicate-free union over all areas and groups |
| MembersRun.Survivors | src/main/java/org/olat/course/nodes/members/MembersCourseNodeRunController.java:235-268 | the identities that get an entry: all of them without a catcher, otherwise those whose key was neither caught before nor seen earlier in the list |
| MembersRun.SurvivorsWithoutCatcher | src/main/java/org/olat/course/nodes/members/MembersCourseNodeRunController.java:235-236 | without a duplicate catcher every identity is kept, in input order |
| MembersRun.SurvivorsKeys | src/main/java/org/olat/course/nodes/members/MembersCourseNodeRunController.java:235-268 | with a catcher the kept identities have distinct keys, come from the input, and their keys are the input keys not seen before |
| MembersRun.SurvivorsKeepFirstOccurrences | src/main/java/org/olat/course/nodes/members/MembersCourseNodeRunController.java:235-268 | with a catcher the first occurrence of every unseen key is kept |
| MembersRun.StatusIcon | src/main/java/org/olat/course/nodes/members/MembersCourseNodeRunController.java:290-298 | null or "available" gives the available icon, "dnd" the dnd icon, anything else unavailable; never the plain chat icon |
| MembersRun.LoadedLinksAreFinal | src/main/java/org/olat/course/nodes/members/MembersCourseNodeRunController.java:276-299 | once every key of loadStatus is loaded, each entry carries its final chat link |
| MembersRun.DistinctKeysGetStatusIcons | src/main/java/org/olat/course/nodes/members/MembersCourseNodeRunController.java:276-299 | with distinct keys, every online member other than the viewer gets the icon of its buddy status |
| MembersRun.MembersController.constructor | src/main/java/org/olat/course/nodes/members/MembersCourseNodeRunController.java:131-152 | the counter starts at zero with empty lists and the given flags |
| MembersRun.MembersController.CreateMemberLinks | src/main/java/org/olat/course/nodes/members/MembersCourseNodeRunController.java:233-313 | one entry per surviving identity, numbered on from the counter; the catcher gains their keys; the chat link is hidden for the viewer and otherwise shows the status icon |
| MembersRun.MembersController.CreateMembers | src/main/java/org/olat/course/nodes/members/MembersCourseNodeRunController.java:234-269 | the entry loop: skips caught identities, numbers the others consecutively and records their keys |
| MembersRun.MembersController.SetChatIcons | src/main/java/org/olat/course/nodes/members/MembersCourseNodeRunController.java:271-310 | sets every chat link to its final state, keys unchanged |
| MembersRun.MembersController.MarkOnline | src/main/java/org/olat/course/nodes/members/MembersCourseNodeRunController.java:276-284 | hides the viewer's link, marks offline members unavailable, and maps each online key to its last entry |
| MembersRun.MembersController.LoadStatusIcons | src/main/java/org/olat/course/nodes/members/MembersCourseNodeRunController.java:286-300 | gives each loaded entry the icon of its buddy status |
| MembersRun.MembersController.ChatOnly | src/main/java/org/olat/course/nodes/members/MembersCourseNodeRunController.java:301-309 | without online status: the viewer's link hidden, every other link the chat icon |
| MembersRun.MembersController.InitForm | src/main/java/org/olat/course/nodes/members/MembersCourseNodeRunController.java:199-202 | GUI ids are consecutive across the three lists; without de-duplication every identity is listed in order; with it no key appears twice, owners win over coaches over participants, and every key is listed once |
| ModuleConfig.StringValue | src/main/java/org/olat/course/nodes/STCourseNode.java:251 | a text entry's value, and null for a missing or non-text entry |
| ModuleConfig.StringValueOr | src/main/java/org/olat/course/learningpath/ui/LearningPathNodeConfigController.java:98 | the text entry or the default |
| ModuleConfig.DateValue | src/main/java/org/olat/course/learningpath/ui/LearningPathNodeConfigController.java:104 | the stored date, or null |
| STCourse.NewNodeConfig | src/main/java/org/olat/course/nodes/STCourseNode.java:350-360 | a new node has relative links off, peekview display, two columns, the default delivery options and version 3; other keys are kept |
| STCourse.Upgrade | src/main/java/org/olat/course/nodes/STCourseNode.java:365-396 | the upgrade reaches version 4 or keeps a higher one and then changes nothing; v<2 sets relative links off; v<3 sets display "file" when a file is set, otherwise TOC in one column; v<4 adds delivery options only when absent |
| STCourse.UpgradeIdempotent | src/main/java/org/olat/course/nodes/STCourseNode.java:366-390 | a second upgrade changes nothing |
| STCourse.IsDelegatingSTCourseNode | src/main/java/org/olat/course/nodes/STCourseNode.java:212-219 | true iff the node is a structure node whose display type is "delegate" (TOC by default) |
| STCourse.ActiveCondition | src/main/java/org/olat/course/nodes/STCourseNode.java:485-491 | one condition expression iff the expression is non-blank |
| STCourse.ActiveConditions | src/main/java/org/olat/course/nodes/STCourseNode.java:484-509 | passed, score, failed in that order, each present iff its expression is non-blank, carrying that expression |
| STCourse.ConditionExpressionsListed | src/main/java/org/olat/course/nodes/STCourseNode.java:473-511 | the parent conditions come first, and a condition id is listed iff a parent lists it or its expression is non-blank |
| STCourse.STCourseNode.constructor | src/main/java/org/olat/course/nodes/STCourseNode.java:111-114 | a new node: the new-node configuration and a fresh score calculator |
| STCourse.STCourseNode.GetScoreCalculator | src/main/java/org/olat/course/nodes/STCourseNode.java:288-315 | creates the calculator when missing and rebuilds the three conditions from it, in expert mode where an expression is set |
| STCourse.STCourseNode.SetScoreCalculator | src/main/java/org/olat/course/nodes/STCourseNode.java:317-337 | stores the given calculator (or a new one for null) and copies its expressions into the three conditions in expert mode |
| STCourse.STCourseNode.UpdateModuleConfigDefaults | src/main/java/org/olat/course/nodes/STCourseNode.java:348-398 | a new node gets the new-node configuration and a fresh calculator; otherwise the configuration is upgraded, and a v<2 node's calculator is switched to expert mode |
| STCourse.STCourseNode.IsConfigValid | src/main/java/org/olat/course/nodes/STCourseNode.java:246-265 | the cached status when there is one; otherwise an error iff the display type is "file" and the file name is null or blank |
| STCourse.STCourseNode.GetConditionExpressions | src/main/java/org/olat/course/nodes/STCourseNode.java:473-511 | the parent conditions followed by the active conditions of the calculator |
| STCourse.STCourseNode.AddIfActive | src/main/java/org/olat/course/nodes/STCourseNode.java:484-491 | appends the condition iff its expression is non-blank |
| UserSearchForm.StringValue | src/main/java/org/olat/admin/user/UsermanagerUserSearchForm.java:251-258 | a text item's value, and null for a missing or non-text item |
| UserSearchForm.LoginFor | src/main/java/org/olat/admin/user/UsermanagerUserSearchForm.java:191-196 | a deleted-status search always has a login starting with `*`; otherwise an empty login becomes null and any other is kept |
| UserSearchForm.Contribution | src/main/java/org/olat/admin/user/UsermanagerUserSearchForm.java:202-216 | a generic checkbox contributes "true" iff checked; another property contributes iff its value is non-blank, with `*` before e-mail values when searching deleted users |
| UserSearchForm.PropertiesOfKeys | src/main/java/org/olat/admin/user/UsermanagerUserSearchForm.java:200-217 | the search map holds a key iff some handler of that name contributes |
| UserSearchForm.PropertiesOfValues | src/main/java/org/olat/admin/user/UsermanagerUserSearchForm.java:200-217 | with distinct handler names, each contributing handler's value is the one in the map |
| UserSearchForm.PropertySearch | src/main/java/org/olat/admin/user/UsermanagerUserSearchForm.java:218-220 | an empty search map becomes null; a non-null map is non-empty |
| UserSearchForm.RolesNameSelectedKeys | src/main/java/org/olat/admin/user/UsermanagerUserSearchForm.java:268-276 | the roles' names are the selected keys with the blank ones skipped, in order |
| UserSearchForm.ExpandMembership | src/main/java/org/olat/admin/user/UsermanagerUserSearchForm.java:285-296 | one selected key yields null for `noAuth`, every SPI name for `OAuth`, and itself otherwise |
| UserSearchForm.ProvidersBelowWanted | src/main/java/org/olat/admin/user/UsermanagerUserSearchForm.java:284-298 | the providers of the first n keys are exactly those their selected keys expand to |
| UserSearchForm.AuthProvidersMembership | src/main/java/org/olat/admin/user/UsermanagerUserSearchForm.java:282-300 | null is listed iff `noAuth` is selected; a name is listed iff it is selected as itself (not `noAuth`/`OAuth`) or is an SPI name with `OAuth` selected |
| UserSearchForm.StateOf | src/main/java/org/olat/admin/user/UsermanagerUserSearchForm.java:302-312 | the saved state holds exactly the text items, with their values |
| UserSearchForm.RestoreOwnState | src/main/java/org/olat/admin/user/UsermanagerUserSearchForm.java:302-333 | restoring a form's own saved state changes nothing |
| UserSearchForm.StateAfterApply | src/main/java/org/olat/admin/user/UsermanagerUserSearchForm.java:260-333 | restoring keeps the items and their kinds; the text values become the state's where it has one |
| UserSearchForm.CollectAuthKeys | src/main/java/org/olat/admin/user/UsermanagerUserSearchForm.java:158-177 | the enabled providers in order, then WEBDAV when enabled, then `noAuth` |
| UserSearchForm.NoAuthOfferedLast | src/main/java/org/olat/admin/user/UsermanagerUserSearchForm.java:176 | `noAuth` is always offered, as the last key |
| UserSearchForm.UsermanagerUserSearchForm.constructor | src/main/java/org/olat/admin/user/UsermanagerUserSearchForm.java:108-184 | the handlers and items as given, the offered provider keys, nothing selected |
| UserSearchForm.UsermanagerUserSearchForm.GetRoles | src/main/java/org/olat/admin/user/UsermanagerUserSearchForm.java:268-276 | the roles of the non-blank selected keys, in order |
| UserSearchForm.UsermanagerUserSearchForm.GetAuthProviders | src/main/java/org/olat/admin/user/UsermanagerUserSearchForm.java:282-300 | the expansion of the selected provider keys, in key order |
| UserSearchForm.UsermanagerUserSearchForm.AddAll | src/main/java/org/olat/admin/user/UsermanagerUserSearchForm.java:291-293 | appends every SPI name |
| UserSearchForm.UsermanagerUserSearchForm.UserPropertiesSearch | src/main/java/org/olat/admin/user/UsermanagerUserSearchForm.java:200-217 | the loop builds the search map of the contributing handlers |
| UserSearchForm.UsermanagerUserSearchForm.GetSearchIdentityParams | src/main/java/org/olat/admin/user/UsermanagerUserSearchForm.java:189-226 | login, property map, intersection search, roles, providers, dates and status as above; no identity keys, managed unset |
| UserSearchForm.UsermanagerUserSearchForm.GetStateEntry | src/main/java/org/olat/admin/user/UsermanagerUserSearchForm.java:302-325 | the loop saves exactly `StateOf(items)` |
| UserSearchForm.UsermanagerUserSearchForm.SetStateEntry | src/main/java/org/olat/admin/user/UsermanagerUserSearchForm.java:327-333 | the loop restores the state into the text items |
| LearningPathConfig.ParseInt | src/main/java/org/olat/course/learningpath/ui/LearningPathNodeConfigController.java:193 | `Integer.parseInt`: a parsed value is a 32-bit int, and only a non-empty text without whitespace parses |
| LearningPathConfig.ParseIntRoundTrip | src/main/java/org/olat/course/learningpath/ui/LearningPathNodeConfigController.java:193 | every 32-bit int written in decimal parses back to itself |
| LearningPathConfig.IntegerFieldValid | src/main/java/org/olat/course/learningpath/ui/LearningPathNodeConfigController.java:186-210 | a disabled or hidden field is valid; a blank one iff not mandatory; a non-blank one iff it parses to a value in [min, max] |
| LearningPathConfig.ValidateInteger | src/main/java/org/olat/course/learningpath/ui/LearningPathNodeConfigController.java:186-210 | returns that verdict; the error is cleared and set iff the verdict is false |
| LearningPathConfig.PaddedNumberRejected | src/main/java/org/olat/course/learningpath/ui/LearningPathNodeConfigController.java:191-201 | " 5" is rejected: it has text but `parseInt` refuses the space |
| LearningPathConfig.WrittenIntegerAccepted | src/main/java/org/olat/course/learningpath/ui/LearningPathNodeConfigController.java:191-201 | a 32-bit int in range, written in decimal, is accepted |
| LearningPathConfig.FalseIfNull | src/main/java/org/olat/course/learningpath/ui/LearningPathNodeConfigController.java:355-359 | a null trigger becomes untranslated false; a set one is kept |
| LearningPathConfig.ControllerConfigBuilder.constructor | src/main/java/org/olat/course/learningpath/ui/LearningPathNodeConfigController.java:275-284 | obligation visible, no trigger enabled, both status triggers unset |
| LearningPathConfig.ControllerConfigBuilder.DisableObligation | src/main/java/org/olat/course/learningpath/ui/LearningPathNodeConfigController.java:286-289 | hides the obligation and returns the builder |
| LearningPathConfig.ControllerConfigBuilder.EnableNodeVisited | src/main/java/org/olat/course/learningpath/ui/LearningPathNodeConfigController.java:291-294 | enables the trigger and returns the builder |
| LearningPathConfig.ControllerConfigBuilder.EnableConfirmed | src/main/java/org/olat/course/learningpath/ui/LearningPathNodeConfigController.java:296-299 | enables the trigger and returns the builder |
| LearningPathConfig.ControllerConfigBuilder.EnableScore | src/main/java/org/olat/course/learningpath/ui/LearningPathNodeConfigController.java:301-304 | enables the trigger and returns the builder |
| LearningPathConfig.ControllerConfigBuilder.EnablePassed | src/main/java/org/olat/course/learningpath/ui/LearningPathNodeConfigController.java:306-309 | enables the trigger and returns the builder |
| LearningPathConfig.ControllerConfigBuilder.EnableStatusInReview | src/main/java/org/olat/course/learningpath/ui/LearningPathNodeConfigController.java:311-319 | untranslated true without a message, translated true with one |
| LearningPathConfig.ControllerConfigBuilder.EnableStatusDone | src/main/java/org/olat/course/learningpath/ui/LearningPathNodeConfigController.java:321-329 | untranslated true without a message, translated true with one |
| LearningPathConfig.ControllerConfigBuilder.Build | src/main/java/org/olat/course/learningpath/ui/LearningPathNodeConfigController.java:331-353 | the configuration copies the flags, with unset status triggers made untranslated false |
| LearningPathConfig.BuildDefaults | src/main/java/org/olat/course/learningpath/ui/LearningPathNodeConfigController.java:269-359 | an untouched builder yields obligation visible, every trigger off and both status triggers untranslated false |
| LearningPathConfig.EnabledBelowContent | src/main/java/org/olat/course/learningpath/ui/LearningPathNodeConfigController.java:126-151 | the options among the first k triggers are exactly the enabled ones, with their captions |
| LearningPathConfig.EnabledBelowOrdered | src/main/java/org/olat/course/learningpath/ui/LearningPathNodeConfigController.java:126-151 | those options are in the fixed trigger order |
| LearningPathConfig.TriggerOptions | src/main/java/org/olat/course/learningpath/ui/LearningPathNodeConfigController.java:126-157 | an option is offered iff its trigger is enabled, in the order nodeVisited, confirmed, score, passed, inReview, done, each captioned by its i18n key or the status trigger's own message |
| LearningPathConfig.TriggerKeyInjective | src/main/java/org/olat/course/learningpath/ui/LearningPathNodeConfigController.java:60-65 | distinct triggers have distinct keys |
| LearningPathConfig.OfferedTriggerKey | src/main/java/org/olat/course/learningpath/ui/LearningPathNodeConfigController.java:126-151 | a trigger's key is among the radio keys iff the trigger is enabled |
| LearningPathConfig.SelectIfListed | src/main/java/org/olat/course/learningpath/ui/LearningPathNodeConfigController.java:99-115 | the stored key is selected iff it is among the offered keys |
| LearningPathConfig.BlankDurationRejected | src/main/java/org/olat/course/learningpath/ui/LearningPathNodeConfigController.java:180-249 | a blank, shown duration is rejected iff completion is by duration and "mandatory" is selected |
| LearningPathConfig.AsWrittenIgnoresDuration | src/main/java/org/olat/course/learningpath/ui/LearningPathNodeConfigController.java:178-183 | as written, the form verdict does not depend on the duration field |
| LearningPathConfig.InvalidDurationAccepted | src/main/java/org/olat/course/learningpath/ui/LearningPathNodeConfigController.java:178-183 | a duration "abc" with score cut "5" passes as written and fails the intended verdict |
| LearningPathConfig.FormVerdictChecksDuration | src/main/java/org/olat/course/learningpath/ui/LearningPathNodeConfigController.java:176-184 | the intended verdict implies the as-written one and a valid duration (1..10000, or blank and not mandatory) |
| LearningPathConfig.SavedConfig | src/main/java/org/olat/course/learningpath/ui/LearningPathNodeConfigController.java:213-235 | the score cut is stored iff its field is visible; keys the form does not own are untouched |
| LearningPathConfig.SavedConfigReloads | src/main/java/org/olat/course/learningpath/ui/LearningPathNodeConfigController.java:213-235 | reading the saved configuration back gives the duration, the obligation (mandatory when none is selected), the start date, the trigger (confirmed when none is selected) and the score cut only when visible |
| LearningPathConfig.LearningPathNodeConfigController.constructor | src/main/java/org/olat/course/learningpath/ui/LearningPathNodeConfigController.java:79-124 | the fields read from the configuration, the stored obligation and trigger selected when offered, the score cut mandatory, and the UI consistent |
| LearningPathConfig.LearningPathNodeConfigController.GetTriggerKV | src/main/java/org/olat/course/learningpath/ui/LearningPathNodeConfigController.java:126-151 | the six guarded appends build exactly `TriggerOptions` |
| LearningPathConfig.LearningPathNodeConfigController.UpdateUI | src/main/java/org/olat/course/learningpath/ui/LearningPathNodeConfigController.java:159-164 | the duration is mandatory per `isDurationMandatory`; the score cut is visible iff the selected trigger is "score" |
| LearningPathConfig.LearningPathNodeConfigController.FormInnerEvent | src/main/java/org/olat/course/learningpath/ui/LearningPathNodeConfigController.java:166-174 | an obligation or trigger event refreshes the UI; any other source leaves it |
| LearningPathConfig.LearningPathNodeConfigController.ValidateFormLogic | src/main/java/org/olat/course/learningpath/ui/LearningPathNodeConfigController.java:176-184 | as written: both fields get their errors, but the verdict is the score-cut check and the superclass verdict only |
| LearningPathConfig.LearningPathNodeConfigController.ValidateFormLogicCorrected | src/main/java/org/olat/course/learningpath/ui/LearningPathNodeConfigController.java:176-184 | the same errors, and the verdict also requires a valid duration |
| LearningPathConfig.LearningPathNodeConfigController.FormOK | src/main/java/org/olat/course/learningpath/ui/LearningPathNodeConfigController.java:212-238 | the configuration becomes `SavedConfig` of the fields; with a consistent UI the score cut is stored iff "score" is the selected trigger |

## Left out

- Query execution: HQL/JPA execution, parameter binding, `merge`/`persist`/`commit` and locking are not modelled. The database is plain sets, maps and sequences. Query text is modelled as a sequence of fragments, one per appended piece, with no SQL semantics.
- Database dialects: the Oracle, MySQL and other variants of a LIKE clause are one fragment kind with the dialect as a field. Their exact strings are not modelled.
- HashMap order: the iteration order of the user-property map is an input of the power query, constrained to list every key once. The e-mail and the other-property maps the source builds from it are taken to iterate in that same order; their own HashMap order is not modelled. The order of the map built by the search form and the order of the map iterated by `setStateEntry` are not modelled.
- SecurityRoles.OrganisationMemberships.UpdateRoles: the source makes nine explicit `updateRolesInSecurityGroup` calls. The model loops over the same nine roles in the same order, and each target is stated by `RoleTarget`.
- Services as parameters: the following are parameters or fields given to the model:
  - the invitation store, the organisation service and the login module;
  - the WebDAV and OAuth modules and the session manager;
  - the instant-messaging buddy status and the evaluation-form manager.
- Not modelled:
  - audit logging;
  - mail sending beyond recording the mail;
  - `fireEvent` and the DONE event;
  - translation (captions are i18n keys).
- Whitespace: `Character.isWhitespace` is restricted to the ASCII whitespace characters. `compareToIgnoreCase` folds ASCII letters only.
- `Integer.parseInt` accepts ASCII digits only. Non-ASCII Unicode digits are not modelled.
- Sorting: `Collections.sort` with the comparator is not modelled. The member lists are taken in the order given. The comparator's own laws are proved instead.
- Exceptions: the try/catch in `updateDataCollectionStatus` is not modelled, because the store update cannot fail here.
- The REST integration test `GroupFoldersTest.java` is pure I/O and is not part of this model.
- Constants from files that are not part of this model are declared with the values those files are known to hold:
  - `Identity.STATUS_*` and `OrganisationRoles`;
  - the `RubricRating` and `EmailTrigger` enums;
  - the `STCourseNodeEditController` keys and display values;
  - the `MembersCourseNode` e-mail functions;
  - `AssessmentObligation` names;
  - `WebDAVAuthManager.PROVIDER_WEBDAV` ("WEBDAV");
  - `TranslateableBoolean`.

  The course completion type is a boolean, "completion by duration".
- Date filters are carried as optional integers. No date comparison is modelled.
- Duplicate organisations in the target list of `updateDataCollectionOrganisations` are not merged: the kept organisations are not updated while relations are created, so an organisation listed twice without a relation gets two relations, as in the source (see `QualityService.NewRelationsCount`). Relations are identified by key, without aliasing.
- No operation of the model creates or deletes data collections or contexts, so the curriculum and curriculum-element vetoes are stated as the predicates only; what creates the targets they read is not part of this model.
- ModuleConfiguration.java is not part of this model. A configuration is a map from keys to typed values plus a version. The learning-path form holds the map as a field that `FormOK` reassigns, rather than a shared object.
- Expression rewriting by `KeyAndNameConverter` in `postImportCopy` and `postExport` is not modelled: its source is not part of the model.
- `isConfigValid(cev)` and `getDisplayOption` are not modelled: they depend on the editor environment and the parent class. `IsConfigValid` reads the cached status that the former stores.
- STCourse.STCourseNode.SetScoreCalculator requires the three conditions to exist when a calculator is passed. The source dereferences them and would throw otherwise.
- STCourse.STCourseNode.IsConfigValid requires the cached status array, when present, to be non-empty. The source returns its element 0 and would throw an ArrayIndexOutOfBoundsException on an empty array; the cache holds what `StatusDescriptionHelper.sort` returns for the parent's status list, which the model takes to be non-empty.
- A text element created from a null configuration value is taken to hold "". The date chooser of `setDateValue(null)` is stored as a date entry without a date.
- The GUI framework updates a selection before `formInnerEvent` runs. The model takes the selections as already updated.
- Element creation in `initForm` is not modelled: layout, listeners and the submit button.
- UserSearchForm.Contribution: a handler whose item is missing contributes nothing. The source passes null to the handler, which is not part of this model.
- UserSearchForm.LoginFor requires a login item holding text unless the status is DELETED. The source calls `equals` on the null login and throws otherwise. UserSearchForm.UsermanagerUserSearchForm.GetSearchIdentityParams carries the same requirement.
- UserSearchForm.UsermanagerUserSearchForm.GetRoles requires every selected key to be an offered role or blank. `OrganisationRoles.valueOf` throws on anything else.
- The status selection is an integer field. `new Integer(status.getSelectedKey())` on a non-number is not modelled.
- QualityService.QualityStore.StartDataCollection requires the pending-deadline collections to be distinct, as the rows of one query are.

## Findings

| source | as written | input that shows it | evidently intended | confidence | as-written member | corrected member |
|---|---|---|---|---|---|---|
| src/main/java/org/olat/course/nodes/members/MembersCourseNodeRunController.java:466-479 | `compare` returns -1 whenever its first argument, or the first's last or first name, is null, even when the second is null too | `compare(null, null) == -1`, and `compare(x, x) == -1` for an identity with a last name but no first name | a `Comparator`: nulls first, and two nulls tie, so `sgn(compare(x, y)) == -sgn(compare(y, x))` | not executed | MembersRun.ComparatorAsWrittenNotReflexive | MembersRun.CompareAntisymmetric, MembersRun.CompareTransitive |
| src/main/java/org/olat/course/learningpath/ui/LearningPathNodeConfigController.java:180-181 | `allOk` is overwritten by the score-cut check, so an invalid duration does not block saving | duration "abc" (shown, enabled), score cut "5": `validateFormLogic` returns true | `allOk &= ...`: every validated field must be valid | not executed | LearningPathConfig.InvalidDurationAccepted | LearningPathConfig.LearningPathNodeConfigController.ValidateFormLogicCorrected |
