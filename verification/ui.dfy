/**
 * What the dashboard pages show besides their own state: toast notifications,
 * and the route they navigate to.
 */
module Ui {
  datatype Notice = Success(text: string) | Failure(text: string)

  const ProjectsRoute: string := "/projects"
}
