/** Record shapes that several components read. */
module Records {
  /** A row of the `subjects` table. */
  datatype Subject = Subject(id: string, name: string)

  /** A row of the `availability` table: one weekly time slot of a tutor. */
  datatype Slot = Slot(id: string, dayOfWeek: int, startTime: string, endTime: string)
}
