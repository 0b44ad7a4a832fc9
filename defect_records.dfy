/** A defect record of the mock data set: the dict keys `id`, `unit`, `desc`,
    `status` and `owner_id`, and the optional `remarks` and `image`. */
module DefectRecords {
  import opened Wrappers

  datatype Defect = Defect(
    id: int,
    unit: string,
    desc: string,
    status: string,
    ownerId: int,
    remarks: Option<string>,
    image: Option<string>)
}
