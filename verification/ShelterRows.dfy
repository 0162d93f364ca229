/** The shelters table as its cache and its admissions see it. */
module ShelterRows {
  type ShelterId = nat

  datatype Status = Open | Closed

  datatype Shelter = Shelter(status: Status, capacity: int, occupancy: int)
}
