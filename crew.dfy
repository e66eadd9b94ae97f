/**
 * The medical coding crew (backend/app/agents/crew.py): four agents and
 * four tasks, built once on first use, run in the fixed order entity
 * structuring, ICD-10-CM, HCPCS, CPT. The agent and task factories are
 * modelled by values naming their stage; running a crew is an oracle.
 */
module Crew {
  import opened Wrappers
  import opened Responses

  /** The four coding stages. */
  datatype Stage = EntityStage | IcdStage | HcpcsStage | CptStage

  /** What `create_<stage>_agent()` builds. */
  datatype Agent = Agent(stage: Stage)

  /** What `create_<stage>_task(agent)` builds: a task of that stage, assigned to `agent`. */
  datatype Task = Task(stage: Stage, agent: Agent)

  /** The underlying crewai `Crew`: its agents and tasks, in registration order, and its verbosity. */
  datatype CrewHandle = CrewHandle(agents: seq<Agent>, tasks: seq<Task>, verbose: bool)

  /** One task's output as the crew returns it: its structured (pydantic) output, when it has one. */
  datatype TaskOutput = TaskOutput(pydantic: Option<StructuredOutput>)

  /** `CrewOutput`: the task outputs, in task order, and the token usage. */
  datatype CrewOutput = CrewOutput(tasksOutput: seq<TaskOutput>, tokenUsage: TokenUsage)

  /** Running a crew on its inputs; may raise. */
  type CrewEngine = (CrewHandle, map<string, string>) -> Result<CrewOutput, string>

  const ReportTextKey: string := "medical_report_text"

  function EntityTask(): Task { Task(EntityStage, Agent(EntityStage)) }
  function IcdTask(): Task { Task(IcdStage, Agent(IcdStage)) }
  function HcpcsTask(): Task { Task(HcpcsStage, Agent(HcpcsStage)) }
  function CptTask(): Task { Task(CptStage, Agent(CptStage)) }

  /** The crew `initialize` builds. */
  function StandardCrew(verbose: bool): CrewHandle {
    CrewHandle(
      [Agent(EntityStage), Agent(IcdStage), Agent(HcpcsStage), Agent(CptStage)],
      [EntityTask(), IcdTask(), HcpcsTask(), CptTask()],
      verbose)
  }

  /** The stage order the pipeline's positional mapping assumes. */
  const TaskOrder: seq<Stage> := [EntityStage, IcdStage, HcpcsStage, CptStage]

  /** The structured-output schema a stage's task declares (`output_pydantic`). */
  predicate HasStageSchema(stage: Stage, o: StructuredOutput) {
    match stage
    case EntityStage => o.EntitiesOutput?
    case IcdStage => o.IcdOutput?
    case HcpcsStage => o.HcpcsOutput?
    case CptStage => o.CptOutput?
  }

  /**
   * The standard crew runs the stages in `TaskOrder`, registers its agents
   * in the same order as its tasks, and gives every task the agent of its
   * own stage.
   */
  lemma StandardCrewOrder(verbose: bool)
    ensures var c := StandardCrew(verbose);
      && |c.tasks| == |TaskOrder| == |c.agents|
      && (forall i :: 0 <= i < |c.tasks| ==> c.tasks[i].stage == TaskOrder[i])
      && (forall i :: 0 <= i < |c.tasks| ==> c.agents[i] == c.tasks[i].agent)
      && (forall i :: 0 <= i < |c.tasks| ==> c.tasks[i].agent.stage == c.tasks[i].stage)
      && c.verbose == verbose
  {
  }

  /** Every stage occurs exactly once in the task order. */
  lemma TaskOrderCoversStages(stage: Stage)
    ensures multiset(TaskOrder)[stage] == 1
  {
  }

  /** `MedicalCodingCrew`. */
  class MedicalCodingCrew {
    const verbose: bool
    var initialized: bool
    var crew: Option<CrewHandle>
    var entityAgent: Option<Agent>
    var icdAgent: Option<Agent>
    var cptAgent: Option<Agent>
    var hcpcsAgent: Option<Agent>
    var entityTask: Option<Task>
    var icdTask: Option<Task>
    var hcpcsTask: Option<Task>
    var cptTask: Option<Task>

    /** The flag is set exactly when the agents, the tasks and the standard crew have been built. */
    ghost predicate Valid()
      reads this
    {
      if initialized then
        && crew == Some(StandardCrew(verbose))
        && entityAgent == Some(Agent(EntityStage)) && icdAgent == Some(Agent(IcdStage))
        && cptAgent == Some(Agent(CptStage)) && hcpcsAgent == Some(Agent(HcpcsStage))
        && entityTask == Some(EntityTask()) && icdTask == Some(IcdTask())
        && hcpcsTask == Some(HcpcsTask()) && cptTask == Some(CptTask())
      else
        crew == None
    }

    /** A new crew is uninitialised and holds no underlying crew. */
    constructor(verbose: bool)
      ensures Valid()
      ensures this.verbose == verbose && !initialized && crew == None
    {
      this.verbose := verbose;
      initialized := false;
      crew := None;
      entityAgent, icdAgent, cptAgent, hcpcsAgent := None, None, None, None;
      entityTask, icdTask, hcpcsTask, cptTask := None, None, None, None;
    }

    /** Builds everything on the first call only; a later call changes nothing. */
    method Initialize()
      requires Valid()
      modifies this
      ensures Valid() && initialized && crew == Some(StandardCrew(verbose))
      ensures old(initialized) ==> unchanged(this)
    {
      if !initialized {
        entityAgent := Some(Agent(EntityStage));
        icdAgent := Some(Agent(IcdStage));
        cptAgent := Some(Agent(CptStage));
        hcpcsAgent := Some(Agent(HcpcsStage));

        entityTask := Some(Task(EntityStage, entityAgent.value));
        icdTask := Some(Task(IcdStage, icdAgent.value));
        hcpcsTask := Some(Task(HcpcsStage, hcpcsAgent.value));
        cptTask := Some(Task(CptStage, cptAgent.value));

        crew := Some(CrewHandle(
          [entityAgent.value, icdAgent.value, hcpcsAgent.value, cptAgent.value],
          [entityTask.value, icdTask.value, hcpcsTask.value, cptTask.value],
          verbose));

        initialized := true;
      }
    }

    /** Initialises, then runs the standard crew with the text under `medical_report_text`. */
    method Kickoff(engine: CrewEngine, medicalReportText: string) returns (r: Result<CrewOutput, string>)
      requires Valid()
      modifies this
      ensures Valid() && initialized
      ensures old(initialized) ==> unchanged(this)
      ensures r == engine(StandardCrew(verbose), map[ReportTextKey := medicalReportText])
    {
      Initialize();
      r := engine(crew.value, map[ReportTextKey := medicalReportText]);
    }

    /** The `crew` property: initialises, then returns the underlying crew. */
    method GetCrew() returns (c: CrewHandle)
      requires Valid()
      modifies this
      ensures Valid() && initialized
      ensures old(initialized) ==> unchanged(this)
      ensures c == StandardCrew(verbose)
    {
      Initialize();
      c := crew.value;
    }
  }

  /** `get_medical_coding_crew`: a new, uninitialised crew. */
  method GetMedicalCodingCrew(verbose: bool) returns (c: MedicalCodingCrew)
    ensures fresh(c) && c.Valid()
    ensures c.verbose == verbose && !c.initialized && c.crew == None
  {
    c := new MedicalCodingCrew(verbose);
  }
}
