/** The record the course-listing endpoint returns for each course (src/src/types.ts). */
module Types {
  import opened Wrappers

  datatype Course = Course(
    id: string,
    name: string,
    instituteName: string,
    location: string,
    category: string,
    deliveryMethod: string,
    language: Option<string>,
    startDate: string)
}
