/** What the two offset executors share. */
module Kafka {
  datatype Partition = Partition(topic: string, number: int)
}
