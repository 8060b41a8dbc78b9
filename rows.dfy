/**
 * Rows of the two Supabase tables the site's pages and functions read and write. Column names
 * are the tables' own; timestamps (`submitted_at`, `visited_at`, stored as ISO
 * text) are modelled as milliseconds since the epoch.
 */
module Rows {

  /** A row of the `queries` table: one submitted inquiry. */
  datatype QueryRow = QueryRow(
    name: string,
    email: string,
    phone: string,
    art_type: string,
    size: string,
    budget: string,
    message: string,
    timeline: string,
    ip_address: string,
    submitted_at: int,
    user_agent: string,
    status: string)

  /** A row of the `visitors` table: one page visit. */
  datatype VisitorRow = VisitorRow(ip_address: string, visited_at: int, user_agent: string)

  function SubmittedAt(q: QueryRow): int {
    q.submitted_at
  }
}
