/** The Jira records the core reads and produces (the shapes of src/types/jira.ts). */
module JiraTypes {
  import opened Wrappers

  /** One entry of the accessible-resources list; `id` is the cloud id. */
  datatype AccessibleResource = AccessibleResource(
    id: string,
    url: string,
    name: string,
    scopes: seq<string>,
    avatarUrl: string)

  datatype BoardLocation = BoardLocation(
    projectId: int,
    displayName: string,
    projectName: string,
    projectKey: string,
    projectTypeKey: string,
    avatarUri: string,
    name: string)

  datatype Board = Board(
    id: int,
    self: string,
    name: string,
    boardType: string,
    location: Option<BoardLocation>)

  datatype StatusReference = StatusReference(id: string, self: string)

  /** A column of a board configuration and the statuses mapped to it. */
  datatype Column = Column(
    name: string,
    statuses: seq<StatusReference>,
    min: Option<int>,
    max: Option<int>)

  datatype BoardConfiguration = BoardConfiguration(
    id: int,
    name: string,
    columns: seq<Column>,
    constraintType: string)

  /** An issue, reduced to the fields the core reads; `statusId` is `fields.status.id`. */
  datatype Issue = Issue(id: string, key: string, summary: string, statusId: string)

  datatype JiraUser = JiraUser(
    self: string,
    accountId: string,
    accountType: string,
    emailAddress: Option<string>,
    displayName: string,
    active: bool)

  /** One column of a `BoardWithDetails`. */
  datatype ColumnSummary = ColumnSummary(name: string, issueCount: nat, statuses: seq<string>)

  /** `{ ...board, columns }`: the board's own fields and the computed columns. */
  datatype BoardWithDetails = BoardWithDetails(board: Board, columns: seq<ColumnSummary>)
}
