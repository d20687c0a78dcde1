/** LearnService (src/learn/service.py): a student's lessons advance topic by
    topic through numbered modules.  The Mongo collections are sequences in
    insertion order, which is also created_at order, so "most recent" is
    "last".  A lesson's content comes from the language model; here it is
    the `sections` parameter. */
module LearnService {
  import opened Common

  /** TopicModel (learn/serializers.py:7-15): ids are the 1-based position
      of the topic in its module. */
  datatype Topic = Topic(id: int, title: string)

  /** ModuleModel (learn/serializers.py:18-26); `id` is the stored `_id`. */
  datatype Module = Module(id: string, topics: seq<Topic>, moduleNumber: int, moduleName: string)

  /** SectionModel and its content blocks (learn/model.py). */
  datatype ContentType = Heading | Paragraph | OrderedList | UnorderedList
  datatype ContentBlock = ContentBlock(kind: ContentType, text: Option<string>, items: Option<seq<string>>)
  datatype Section = Section(id: int, content: seq<ContentBlock>)

  /** LessonModel (learn/serializers.py:29-39); `key` is the stored `_id`. */
  datatype Lesson = Lesson(key: int, userId: int, moduleId: string, topicId: int, sections: seq<Section>,
                           finished: bool)

  /** `ModuleModel(**None)` when find_one finds nothing. */
  const NO_MODULE: Error := InternalError("argument after ** must be a mapping, not NoneType")

  /** `next_topic.title` on None (service.py:140). */
  const NO_TOPIC_TITLE: Error := InternalError("'NoneType' object has no attribute 'title'")

  /** A lesson a `find` for this user selects: any of theirs, or only the
      unfinished ones. */
  predicate Picks(l: Lesson, userId: int, unfinishedOnly: bool) {
    l.userId == userId && (unfinishedOnly ==> !l.finished)
  }

  /** The first document of a `find` sorted by created_at descending. */
  function Latest(lessons: seq<Lesson>, userId: int, unfinishedOnly: bool): (k: Option<nat>)
    ensures k.Some? ==> k.value < |lessons| && Picks(lessons[k.value], userId, unfinishedOnly)
                        && forall j :: k.value < j < |lessons| ==> !Picks(lessons[j], userId, unfinishedOnly)
    ensures k.None? ==> forall j :: 0 <= j < |lessons| ==> !Picks(lessons[j], userId, unfinishedOnly)
    decreases |lessons|
  {
    if lessons == [] then None
    else if Picks(lessons[|lessons| - 1], userId, unfinishedOnly) then Some(|lessons| - 1)
    else Latest(lessons[..|lessons| - 1], userId, unfinishedOnly)
  }

  /** The filters find_one is given on the modules collection. */
  datatype ModuleFilter = ByNumber(moduleNumber: int) | ById(id: string)

  predicate Satisfies(m: Module, f: ModuleFilter) {
    match f
    case ByNumber(n) => m.moduleNumber == n
    case ById(id) => m.id == id
  }

  /** find_one: the first module in collection order that satisfies the filter. */
  function FindOne(modules: seq<Module>, f: ModuleFilter): (r: Option<Module>)
    ensures r.Some? ==> r.value in modules && Satisfies(r.value, f)
    ensures r.Some? ==> exists i :: 0 <= i < |modules| && modules[i] == r.value
                                    && forall j :: 0 <= j < i ==> !Satisfies(modules[j], f)
    ensures r.None? ==> forall i :: 0 <= i < |modules| ==> !Satisfies(modules[i], f)
  {
    if modules == [] then None
    else if Satisfies(modules[0], f) then Some(modules[0])
    else FindOne(modules[1..], f)
  }

  /** Where the lesson after a finished one goes (service.py:112-125). */
  datatype Placement = SameModule(topicId: int) | NextModule(moduleNumber: int)

  /** The topic after `lastTopicId`, while it is within the module's topic
      count; past it, topic 1 of the module numbered one higher. */
  function NextPlacement(lastTopicId: int, current: Module): (p: Placement)
    ensures p.SameModule? <==> lastTopicId + 1 <= |current.topics|
    ensures p.SameModule? && 0 <= lastTopicId ==> 1 <= p.topicId <= |current.topics|
    ensures p.SameModule? ==> p.topicId == lastTopicId + 1
    ensures p.NextModule? ==> p.moduleNumber == current.moduleNumber + 1
  {
    if lastTopicId + 1 > |current.topics| then NextModule(current.moduleNumber + 1)
    else SameModule(lastTopicId + 1)
  }

  /** The outcome of the scan of service.py:136-139: the last topic with the
      id, if any. */
  function LastMatch(topics: seq<Topic>, topicId: int): (t: Option<Topic>)
    ensures t.None? <==> forall i :: 0 <= i < |topics| ==> topics[i].id != topicId
    ensures t.Some? ==> exists i :: 0 <= i < |topics| && topics[i] == t.value && t.value.id == topicId
                                    && forall j :: i < j < |topics| ==> topics[j].id != topicId
    decreases |topics|
  {
    if topics == [] then None
    else if topics[|topics| - 1].id == topicId then Some(topics[|topics| - 1])
    else LastMatch(topics[..|topics| - 1], topicId)
  }

  /** The scan loop (service.py:136-139): every match overwrites the last. */
  method ScanTopics(topics: seq<Topic>, topicId: int) returns (nextTopic: Option<Topic>)
    ensures nextTopic == LastMatch(topics, topicId)
  {
    nextTopic := None;
    var i := 0;
    while i < |topics|
      invariant 0 <= i <= |topics|
      invariant nextTopic == LastMatch(topics[..i], topicId)
    {
      assert topics[..i + 1][..i] == topics[..i];
      if topics[i].id == topicId {
        nextTopic := Some(topics[i]);
      }
      i := i + 1;
    }
    assert topics[..i] == topics;
  }

  /** The topic chosen as written (service.py:136-144): the title is read
      before the fallback, so a scan that finds nothing fails. */
  function ChooseTopicAsWritten(target: Module, topicId: int): (r: Result<Topic>)
    ensures r.Err? <==> forall i :: 0 <= i < |target.topics| ==> target.topics[i].id != topicId
    ensures r.Err? ==> r.error == NO_TOPIC_TITLE
    ensures r.Ok? ==> r.value.id == topicId && r.value in target.topics
  {
    match LastMatch(target.topics, topicId)
    case None => Err(NO_TOPIC_TITLE)
    case Some(t) => Ok(t)
  }

  /** The topic chosen as intended: the last topic with the id, or topic 1
      titled with the module's name when there is none. */
  function ChooseTopic(target: Module, topicId: int): (t: Topic)
    ensures (exists i :: 0 <= i < |target.topics| && target.topics[i].id == topicId)
            ==> t.id == topicId && t in target.topics
    ensures (forall i :: 0 <= i < |target.topics| ==> target.topics[i].id != topicId)
            ==> t == Topic(1, target.moduleName)
  {
    match LastMatch(target.topics, topicId)
    case None => Topic(1, target.moduleName)
    case Some(t) => t
  }

  /** The two agree whenever a topic matches; when none does, the code as
      written fails where the fallback was meant to apply.  A module with no
      topics is such a case: moving into it always fails as written. */
  lemma {:induction false} FallbackUnreachableAsWritten(target: Module, topicId: int)
    ensures ChooseTopicAsWritten(target, topicId).Ok? ==> ChooseTopicAsWritten(target, topicId).value == ChooseTopic(target, topicId)
    ensures target.topics == [] ==>
              ChooseTopicAsWritten(target, topicId) == Err(NO_TOPIC_TITLE)
              && ChooseTopic(target, topicId) == Topic(1, target.moduleName)
  {
    if target.topics == [] {
      assert LastMatch(target.topics, topicId).None?;
    }
  }

  /** Topics numbered as TopicModel describes them: the n-th has id n. */
  predicate WellNumbered(target: Module) {
    forall i :: 0 <= i < |target.topics| ==> target.topics[i].id == i + 1
  }

  /** On a well-numbered module every topic id within the count is found, so
      the code as written fails only on a module numbered otherwise or on an
      empty one. */
  lemma {:induction false} WellNumberedNeverFails(target: Module, topicId: int)
    requires WellNumbered(target) && 1 <= topicId <= |target.topics|
    ensures ChooseTopicAsWritten(target, topicId) == Ok(ChooseTopic(target, topicId))
    ensures ChooseTopic(target, topicId) == target.topics[topicId - 1]
  {
    assert target.topics[topicId - 1].id == topicId;
    var t := ChooseTopic(target, topicId);
    var i :| 0 <= i < |target.topics| && target.topics[i] == t && t.id == topicId;
    assert target.topics[i].id == i + 1;
  }

  /** The topic of a user's first lesson (service.py:64-74). */
  function FirstTopic(first: Module): (t: Topic)
    ensures first.topics != [] ==> t == first.topics[0]
    ensures first.topics == [] ==> t == Topic(1, first.moduleName)
  {
    if |first.topics| == 0 then Topic(1, first.moduleName) else first.topics[0]
  }

  /** A new, unfinished lesson of the user on a topic of a module; its key is
      the next position in the collection. */
  function NewLesson(lessons: seq<Lesson>, userId: int, target: Module, topic: Topic, sections: seq<Section>)
    : Lesson
  {
    Lesson(|lessons|, userId, target.id, topic.id, sections, false)
  }

  /** The lesson generated on a topic choice, appended to the collection; a
      failed choice leaves the collection alone. */
  function Advance(lessons: seq<Lesson>, userId: int, target: Module, choice: Result<Topic>,
                   sections: seq<Section>): (o: (Result<Lesson>, seq<Lesson>))
  {
    match choice
    case Err(e) => (Err(e), lessons)
    case Ok(t) =>
      var l := NewLesson(lessons, userId, target, t, sections);
      (Ok(l), lessons + [l])
  }

  /** The topic choice after a finished lesson: as written, or, with
      `fallback`, as intended. */
  function PickTopic(target: Module, topicId: int, fallback: bool): Result<Topic>
  {
    if fallback then Ok(ChooseTopic(target, topicId)) else ChooseTopicAsWritten(target, topicId)
  }

  /** The create_lesson flow (service.py:41-164), with the topic chosen as
      written or, with `fallback`, as intended. */
  function LessonFlow(lessons: seq<Lesson>, modules: seq<Module>, userId: int, sections: seq<Section>,
                      fallback: bool): (o: (Result<Lesson>, seq<Lesson>))
  {
    match Latest(lessons, userId, false)
    case None =>
      (match FindOne(modules, ByNumber(1))
       case None => (Err(NO_MODULE), lessons)
       case Some(first) => Advance(lessons, userId, first, Ok(FirstTopic(first)), sections))
    case Some(k) =>
      var last := lessons[k];
      if !last.finished then (Ok(last), lessons)
      else
        match FindOne(modules, ById(last.moduleId))
        case None => (Err(NO_MODULE), lessons)
        case Some(current) =>
          match NextPlacement(last.topicId, current)
          case SameModule(t) => Advance(lessons, userId, current, PickTopic(current, t, fallback), sections)
          case NextModule(n) =>
            match FindOne(modules, ByNumber(n))
            case None => (Err(AllModulesFinished(n - 1)), lessons)
            case Some(next) => Advance(lessons, userId, next, PickTopic(next, 1, fallback), sections)
  }

  /** What create_lesson as written returns and leaves in the lessons
      collection: a next topic that is not found fails on reading its title. */
  function CreateLessonOutcome(lessons: seq<Lesson>, modules: seq<Module>, userId: int, sections: seq<Section>)
    : (o: (Result<Lesson>, seq<Lesson>))
  {
    LessonFlow(lessons, modules, userId, sections, false)
  }

  /** What create_lesson was meant to do: a next topic that is not found falls
      back to topic 1 titled with the module's name. */
  function IntendedLessonOutcome(lessons: seq<Lesson>, modules: seq<Module>, userId: int, sections: seq<Section>)
    : (o: (Result<Lesson>, seq<Lesson>))
  {
    LessonFlow(lessons, modules, userId, sections, true)
  }

  /** The flow as written and as intended differ exactly where the topic scan
      finds nothing: there the code as written fails and stores nothing, while
      the intended flow stores a lesson on topic 1. */
  lemma {:induction false} IntendedDiffersOnlyOnMissingTopic(lessons: seq<Lesson>, modules: seq<Module>,
                                                             userId: int, sections: seq<Section>)
    ensures var o := CreateLessonOutcome(lessons, modules, userId, sections);
            var p := IntendedLessonOutcome(lessons, modules, userId, sections);
            (o.0 != Err(NO_TOPIC_TITLE) ==> p == o)
            && (o.0 == Err(NO_TOPIC_TITLE) ==>
                  o.1 == lessons && p.0.Ok? && p.0.value.topicId == 1 && p.1 == lessons + [p.0.value])
  {
    match Latest(lessons, userId, false)
    case None =>
    case Some(k) =>
      var last := lessons[k];
      if last.finished {
        match FindOne(modules, ById(last.moduleId))
        case None =>
        case Some(current) =>
          match NextPlacement(last.topicId, current)
          case SameModule(t) => FallbackUnreachableAsWritten(current, t);
          case NextModule(n) =>
            match FindOne(modules, ByNumber(n))
            case None =>
            case Some(next) => FallbackUnreachableAsWritten(next, 1);
      }
  }

  /** Lessons are keyed by their position. */
  predicate KeyedByPosition(lessons: seq<Lesson>) {
    forall i :: 0 <= i < |lessons| ==> lessons[i].key == i
  }

  /** create_lesson either leaves the collection alone or appends exactly the
      lesson it returns: the user's, unfinished, under a fresh key. */
  lemma {:induction false} CreateAppendsAtMostOne(lessons: seq<Lesson>, modules: seq<Module>, userId: int,
                                                  sections: seq<Section>)
    requires KeyedByPosition(lessons)
    ensures var o := CreateLessonOutcome(lessons, modules, userId, sections);
            KeyedByPosition(o.1)
            && (o.1 == lessons
                || (o.0.Ok? && o.1 == lessons + [o.0.value] && o.0.value.userId == userId
                    && !o.0.value.finished && o.0.value.key == |lessons| && o.0.value.sections == sections))
  {
  }

  /** If the user's most recent lesson is unfinished it is returned and
      nothing is generated. */
  lemma UnfinishedLessonReturned(lessons: seq<Lesson>, modules: seq<Module>, userId: int, sections: seq<Section>)
    requires Latest(lessons, userId, false).Some? && !lessons[Latest(lessons, userId, false).value].finished
    ensures CreateLessonOutcome(lessons, modules, userId, sections)
            == (Ok(lessons[Latest(lessons, userId, false).value]), lessons)
  {
  }

  /** After a finished lesson whose topic is not the module's last, the next
      lesson is on the next topic of the same module. */
  lemma {:induction false} NextTopicSameModule(lessons: seq<Lesson>, modules: seq<Module>, userId: int,
                                               sections: seq<Section>, current: Module)
    requires Latest(lessons, userId, false).Some?
    requires var last := lessons[Latest(lessons, userId, false).value];
             last.finished && FindOne(modules, ById(last.moduleId)) == Some(current)
             && last.topicId + 1 <= |current.topics|
             && exists i :: 0 <= i < |current.topics| && current.topics[i].id == last.topicId + 1
    ensures var last := lessons[Latest(lessons, userId, false).value];
            var o := CreateLessonOutcome(lessons, modules, userId, sections);
            o.0.Ok? && o.0.value.moduleId == current.id && o.0.value.topicId == last.topicId + 1
            && o.1 == lessons + [o.0.value]
  {
    var last := lessons[Latest(lessons, userId, false).value];
    assert NextPlacement(last.topicId, current) == SameModule(last.topicId + 1);
  }

  /** After the last topic of a module the next lesson is in the module
      numbered one higher, on its topic 1 when it has one; when it has none the
      call fails on the missing title and stores nothing; without such a module
      the call fails naming the module just finished. */
  lemma {:induction false} MovesToNextModule(lessons: seq<Lesson>, modules: seq<Module>, userId: int,
                                             sections: seq<Section>, current: Module)
    requires Latest(lessons, userId, false).Some?
    requires var last := lessons[Latest(lessons, userId, false).value];
             last.finished && FindOne(modules, ById(last.moduleId)) == Some(current)
             && last.topicId + 1 > |current.topics|
    ensures var o := CreateLessonOutcome(lessons, modules, userId, sections);
            match FindOne(modules, ByNumber(current.moduleNumber + 1))
            case None => o == (Err(AllModulesFinished(current.moduleNumber)), lessons)
            case Some(next) =>
              ((exists i :: 0 <= i < |next.topics| && next.topics[i].id == 1) ==>
                 o.0.Ok? && o.0.value.moduleId == next.id && o.0.value.topicId == 1
                 && o.1 == lessons + [o.0.value])
              && ((forall i :: 0 <= i < |next.topics| ==> next.topics[i].id != 1) ==>
                    o == (Err(NO_TOPIC_TITLE), lessons))
  {
    var last := lessons[Latest(lessons, userId, false).value];
    assert NextPlacement(last.topicId, current) == NextModule(current.moduleNumber + 1);
  }

  /** A user's first lesson is on module 1's first topic, or on topic 1
      titled with its name when module 1 has no topics. */
  lemma FirstLesson(lessons: seq<Lesson>, modules: seq<Module>, userId: int, sections: seq<Section>, first: Module)
    requires Latest(lessons, userId, false).None? && FindOne(modules, ByNumber(1)) == Some(first)
    ensures var o := CreateLessonOutcome(lessons, modules, userId, sections);
            o.0 == Ok(NewLesson(lessons, userId, first, FirstTopic(first), sections)) && o.1 == lessons + [o.0.value]
            && o.0.value.moduleId == first.id
            && o.0.value.topicId == (if first.topics == [] then 1 else first.topics[0].id)
  {
  }

  /** The number of unfinished lessons of a user. */
  function UnfinishedCount(lessons: seq<Lesson>, userId: int): nat
    decreases |lessons|
  {
    if lessons == [] then 0
    else UnfinishedCount(lessons[..|lessons| - 1], userId) + (if Picks(lessons[|lessons| - 1], userId, true) then 1 else 0)
  }

  /** Marking one of a user's unfinished lessons finished lowers their count
      of unfinished lessons by exactly one. */
  lemma {:induction false} FinishingCountsDown(lessons: seq<Lesson>, userId: int, k: nat)
    requires k < |lessons| && Picks(lessons[k], userId, true)
    ensures UnfinishedCount(lessons[k := lessons[k].(finished := true)], userId) == UnfinishedCount(lessons, userId) - 1
    decreases |lessons|
  {
    var after := lessons[k := lessons[k].(finished := true)];
    if k == |lessons| - 1 {
      assert after[..|after| - 1] == lessons[..|lessons| - 1];
    } else {
      assert after[..|after| - 1] == lessons[..|lessons| - 1][k := lessons[k].(finished := true)];
      FinishingCountsDown(lessons[..|lessons| - 1], userId, k);
    }
  }

  class LearnService {
    /** The lessons collection, in insertion order. */
    var lessons: seq<Lesson>
    /** The modules collection. */
    var modules: seq<Module>

    ghost predicate Valid()
      reads this
    {
      KeyedByPosition(lessons)
    }

    constructor (modules: seq<Module>)
      ensures Valid() && lessons == [] && this.modules == modules
    {
      lessons := [];
      this.modules := modules;
    }

    /** create_lesson (service.py:41-164); `sections` is what the language
        model produced for the topic chosen. */
    method CreateLesson(userId: int, sections: seq<Section>) returns (r: Result<Lesson>)
      requires Valid()
      modifies this
      ensures Valid() && modules == old(modules)
      ensures (r, lessons) == CreateLessonOutcome(old(lessons), modules, userId, sections)
    {
      CreateAppendsAtMostOne(lessons, modules, userId, sections);
      var lastLesson := Latest(lessons, userId, false);
      if lastLesson.None? {
        var firstModule := FindOne(modules, ByNumber(1));
        if firstModule.None? {
          return Err(NO_MODULE);
        }
        var firstTopic := if |firstModule.value.topics| == 0 then Topic(1, firstModule.value.moduleName)
                          else firstModule.value.topics[0];
        var lesson := Lesson(|lessons|, userId, firstModule.value.id, firstTopic.id, sections, false);
        lessons := lessons + [lesson];
        return Ok(lesson);
      }
      var last := lessons[lastLesson.value];
      if !last.finished {
        return Ok(last);
      }
      var currentModule := FindOne(modules, ById(last.moduleId));
      if currentModule.None? {
        return Err(NO_MODULE);
      }
      var nextTopicId := last.topicId + 1;
      var nextModule := currentModule.value;
      if nextTopicId > |currentModule.value.topics| {
        var nextModuleNumber := currentModule.value.moduleNumber + 1;
        var found := FindOne(modules, ByNumber(nextModuleNumber));
        nextTopicId := 1;
        if found.None? {
          return Err(AllModulesFinished(nextModuleNumber - 1));
        }
        nextModule := found.value;
      }
      var nextTopic := ScanTopics(nextModule.topics, nextTopicId);
      if nextTopic.None? {
        return Err(NO_TOPIC_TITLE);
      }
      var lesson := Lesson(|lessons|, userId, nextModule.id, nextTopic.value.id, sections, false);
      lessons := lessons + [lesson];
      r := Ok(lesson);
    }

    /** get_current_lesson (service.py:20-39): the newest unfinished lesson,
        else a newly created one. */
    method GetCurrentLesson(userId: int, sections: seq<Section>) returns (r: Result<Lesson>)
      requires Valid()
      modifies this
      ensures Valid() && modules == old(modules)
      ensures Latest(old(lessons), userId, true).Some? ==>
                r == Ok(old(lessons)[Latest(old(lessons), userId, true).value]) && lessons == old(lessons)
      ensures Latest(old(lessons), userId, true).None? ==>
                (r, lessons) == CreateLessonOutcome(old(lessons), modules, userId, sections)
    {
      var ongoing := Latest(lessons, userId, true);
      if ongoing.Some? {
        return Ok(lessons[ongoing.value]);
      }
      r := CreateLesson(userId, sections);
    }

    /** finish_lesson (service.py:174-195): the newest unfinished lesson is
        marked finished and its key returned; None when there is none. */
    method FinishLesson(userId: int) returns (key: Option<int>)
      requires Valid()
      modifies this
      ensures Valid() && modules == old(modules)
      ensures Latest(old(lessons), userId, true).None? ==> key.None? && lessons == old(lessons)
      ensures Latest(old(lessons), userId, true).Some? ==>
                var k := Latest(old(lessons), userId, true).value;
                key == Some(k) && lessons == old(lessons)[k := old(lessons)[k].(finished := true)]
                && UnfinishedCount(lessons, userId) == UnfinishedCount(old(lessons), userId) - 1
    {
      var ongoing := Latest(lessons, userId, true);
      if ongoing.None? {
        return None;
      }
      var k := ongoing.value;
      FinishingCountsDown(lessons, userId, k);
      lessons := lessons[k := lessons[k].(finished := true)];
      key := Some(lessons[k].key);
    }
  }
}
