/** Roles and account states, shared by invitations and the school's records. */
module Accounts {
  datatype Role = OWNER | ADMIN | TEACHER | INSTRUCTOR | STUDENT

  datatype UserStatus = INVITED | ACTIVE | BLOCKED | ARCHIVED

  /** MEMBER_STATUS_TRANSITIONS; staying put is accepted as well. */
  predicate CanChangeStatus(current: UserStatus, next: UserStatus) {
    || next == current
    || (current == ACTIVE && (next == BLOCKED || next == ARCHIVED))
    || (current == BLOCKED && (next == ACTIVE || next == ARCHIVED))
    || (current == ARCHIVED && next == ACTIVE)
  }
}
