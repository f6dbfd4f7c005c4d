/** One row of the host's process table as the UI receives it. */
module Processes {

  /** `cpu` and `mem` are percentages; only their order matters to the model. */
  datatype Process = Process(pid: int, name: string, cpu: real, mem: real, user: string)
}
