/** The record shapes shared by the front end: the `PRD` and `PRDTemplate`
    interfaces of frontend/src/types/prd.ts. */
module PrdTypes {

  datatype Option<T> = None | Some(value: T)

  /** A point in time, in milliseconds since the epoch. Clock reads of the
      source become parameters of this type. */
  type Time = nat

  /** A product requirements document as the front end holds it. */
  datatype Prd = Prd(
    id: Option<string>,
    title: string,
    problemStatement: string,
    targetAudience: string,
    goals: string,
    features: string,
    constraints: string,
    objectives: seq<string>,
    userStories: seq<string>,
    requirements: seq<string>,
    acceptanceCriteria: seq<string>,
    metrics: seq<string>,
    risks: seq<string>,
    createdAt: Time)

  /** The ten seed texts a template supplies. */
  datatype Seed = Seed(
    problemStatement: string,
    userPersonas: string,
    painPoints: string,
    overview: string,
    userFlow: string,
    solution: string,
    features: string,
    technicalFeasibility: string,
    keyMetrics: string,
    futureScope: string)

  /** A catalog entry: a named, pre-filled seed for one document category. */
  datatype PrdTemplate = PrdTemplate(
    id: string,
    name: string,
    description: string,
    category: string,
    template: Seed)
}
